/**
 * `update_lead` of app.py: the payload's items are set on the record one by
 * one, `updated_at` is stamped and the score is recomputed from the result.
 */
module AppLeadUpdate {
  import opened Wrappers
  import opened AppLeads

  /** The attributes of a lead, as `hasattr` knows them. */
  datatype Attr =
    | Id | Role | FirstName | LastName | Email | Phone | Address | ZipCode
    | Beds | Baths | Sqft | PriceMin | PriceMax | Timeline | Tags | Stage
    | ConsentSms | ConsentEmail | ScoreAttr | CreatedAt | UpdatedAt

  /** The value held by one attribute. */
  datatype Value =
    | OptInt(oi: Option<int>)
    | Text(t: string)
    | OptText(ot: Option<string>)
    | OptReal(or: Option<real>)
    | Flag(b: bool)
    | Number(n: int)

  function Get(ld: Lead, a: Attr): Value {
    match a
    case Id => OptInt(ld.id)
    case Role => Text(ld.role)
    case FirstName => OptText(ld.firstName)
    case LastName => OptText(ld.lastName)
    case Email => OptText(ld.email)
    case Phone => OptText(ld.phone)
    case Address => OptText(ld.address)
    case ZipCode => OptText(ld.zipCode)
    case Beds => OptInt(ld.beds)
    case Baths => OptReal(ld.baths)
    case Sqft => OptInt(ld.sqft)
    case PriceMin => OptInt(ld.priceMin)
    case PriceMax => OptInt(ld.priceMax)
    case Timeline => OptText(ld.timeline)
    case Tags => OptText(ld.tags)
    case Stage => Text(ld.stage)
    case ConsentSms => Flag(ld.consentSms)
    case ConsentEmail => Flag(ld.consentEmail)
    case ScoreAttr => Number(ld.score)
    case CreatedAt => Number(ld.createdAt)
    case UpdatedAt => Number(ld.updatedAt)
  }

  /** One `(key, value)` item of the patch payload. */
  datatype Update =
    | SetId(id: Option<int>)
    | SetRole(role: string)
    | SetFirstName(firstName: Option<string>)
    | SetLastName(lastName: Option<string>)
    | SetEmail(email: Option<string>)
    | SetPhone(phone: Option<string>)
    | SetAddress(address: Option<string>)
    | SetZipCode(zipCode: Option<string>)
    | SetBeds(beds: Option<int>)
    | SetBaths(baths: Option<real>)
    | SetSqft(sqft: Option<int>)
    | SetPriceMin(priceMin: Option<int>)
    | SetPriceMax(priceMax: Option<int>)
    | SetTimeline(timeline: Option<string>)
    | SetTags(tags: Option<string>)
    | SetStage(stage: string)
    | SetConsentSms(consentSms: bool)
    | SetConsentEmail(consentEmail: bool)
    | SetScore(score: int)
    | SetCreatedAt(createdAt: int)
    | SetUpdatedAt(updatedAt: int)
    | NoSuchAttribute(key: string)

  /** The attribute an item names, if the lead has one by that name. */
  function Target(u: Update): Option<Attr> {
    match u
    case SetId(_) => Some(Id)
    case SetRole(_) => Some(Role)
    case SetFirstName(_) => Some(FirstName)
    case SetLastName(_) => Some(LastName)
    case SetEmail(_) => Some(Email)
    case SetPhone(_) => Some(Phone)
    case SetAddress(_) => Some(Address)
    case SetZipCode(_) => Some(ZipCode)
    case SetBeds(_) => Some(Beds)
    case SetBaths(_) => Some(Baths)
    case SetSqft(_) => Some(Sqft)
    case SetPriceMin(_) => Some(PriceMin)
    case SetPriceMax(_) => Some(PriceMax)
    case SetTimeline(_) => Some(Timeline)
    case SetTags(_) => Some(Tags)
    case SetStage(_) => Some(Stage)
    case SetConsentSms(_) => Some(ConsentSms)
    case SetConsentEmail(_) => Some(ConsentEmail)
    case SetScore(_) => Some(ScoreAttr)
    case SetCreatedAt(_) => Some(CreatedAt)
    case SetUpdatedAt(_) => Some(UpdatedAt)
    case NoSuchAttribute(_) => None
  }

  /** The value an item carries (unused for a key with no attribute). */
  function NewValue(u: Update): Value {
    match u
    case SetId(v) => OptInt(v)
    case SetRole(v) => Text(v)
    case SetFirstName(v) => OptText(v)
    case SetLastName(v) => OptText(v)
    case SetEmail(v) => OptText(v)
    case SetPhone(v) => OptText(v)
    case SetAddress(v) => OptText(v)
    case SetZipCode(v) => OptText(v)
    case SetBeds(v) => OptInt(v)
    case SetBaths(v) => OptReal(v)
    case SetSqft(v) => OptInt(v)
    case SetPriceMin(v) => OptInt(v)
    case SetPriceMax(v) => OptInt(v)
    case SetTimeline(v) => OptText(v)
    case SetTags(v) => OptText(v)
    case SetStage(v) => Text(v)
    case SetConsentSms(v) => Flag(v)
    case SetConsentEmail(v) => Flag(v)
    case SetScore(v) => Number(v)
    case SetCreatedAt(v) => Number(v)
    case SetUpdatedAt(v) => Number(v)
    case NoSuchAttribute(_) => Flag(false)
  }

  /** `if hasattr(ld, k): setattr(ld, k, v)`: the named attribute takes the value, nothing else moves. */
  function Apply(ld: Lead, u: Update): Lead {
    match u
    case SetId(v) => ld.(id := v)
    case SetRole(v) => ld.(role := v)
    case SetFirstName(v) => ld.(firstName := v)
    case SetLastName(v) => ld.(lastName := v)
    case SetEmail(v) => ld.(email := v)
    case SetPhone(v) => ld.(phone := v)
    case SetAddress(v) => ld.(address := v)
    case SetZipCode(v) => ld.(zipCode := v)
    case SetBeds(v) => ld.(beds := v)
    case SetBaths(v) => ld.(baths := v)
    case SetSqft(v) => ld.(sqft := v)
    case SetPriceMin(v) => ld.(priceMin := v)
    case SetPriceMax(v) => ld.(priceMax := v)
    case SetTimeline(v) => ld.(timeline := v)
    case SetTags(v) => ld.(tags := v)
    case SetStage(v) => ld.(stage := v)
    case SetConsentSms(v) => ld.(consentSms := v)
    case SetConsentEmail(v) => ld.(consentEmail := v)
    case SetScore(v) => ld.(score := v)
    case SetCreatedAt(v) => ld.(createdAt := v)
    case SetUpdatedAt(v) => ld.(updatedAt := v)
    case NoSuchAttribute(_) => ld
  }

  /** After one item, the attribute it names holds its value and every other attribute is as before. */
  lemma ApplyGet(ld: Lead, u: Update, a: Attr)
    ensures Get(Apply(ld, u), a) == if Target(u) == Some(a) then NewValue(u) else Get(ld, a)
  {
    if u.SetId? || u.SetRole? || u.SetFirstName? || u.SetLastName? || u.SetEmail? {
      ApplyGetPart1(ld, u, a);
    } else if u.SetPhone? || u.SetAddress? || u.SetZipCode? || u.SetBeds? || u.SetBaths? {
      ApplyGetPart2(ld, u, a);
    } else if u.SetSqft? || u.SetPriceMin? || u.SetPriceMax? || u.SetTimeline? || u.SetTags? {
      ApplyGetPart3(ld, u, a);
    } else if u.SetStage? || u.SetConsentSms? || u.SetConsentEmail? || u.SetScore? {
      ApplyGetPart4(ld, u, a);
    } else {
      ApplyGetPart5(ld, u, a);
    }
  }

  // `ApplyGet` split over the `Update` constructors in declaration order, a few at a time.

  lemma ApplyGetPart1(ld: Lead, u: Update, a: Attr)
    requires u.SetId? || u.SetRole? || u.SetFirstName? || u.SetLastName? || u.SetEmail?
    ensures Get(Apply(ld, u), a) == if Target(u) == Some(a) then NewValue(u) else Get(ld, a)
  {
  }

  lemma ApplyGetPart2(ld: Lead, u: Update, a: Attr)
    requires u.SetPhone? || u.SetAddress? || u.SetZipCode? || u.SetBeds? || u.SetBaths?
    ensures Get(Apply(ld, u), a) == if Target(u) == Some(a) then NewValue(u) else Get(ld, a)
  {
  }

  lemma ApplyGetPart3(ld: Lead, u: Update, a: Attr)
    requires u.SetSqft? || u.SetPriceMin? || u.SetPriceMax? || u.SetTimeline? || u.SetTags?
    ensures Get(Apply(ld, u), a) == if Target(u) == Some(a) then NewValue(u) else Get(ld, a)
  {
  }

  lemma ApplyGetPart4(ld: Lead, u: Update, a: Attr)
    requires u.SetStage? || u.SetConsentSms? || u.SetConsentEmail? || u.SetScore?
    ensures Get(Apply(ld, u), a) == if Target(u) == Some(a) then NewValue(u) else Get(ld, a)
  {
  }

  lemma ApplyGetPart5(ld: Lead, u: Update, a: Attr)
    requires u.SetCreatedAt? || u.SetUpdatedAt? || u.NoSuchAttribute?
    ensures Get(Apply(ld, u), a) == if Target(u) == Some(a) then NewValue(u) else Get(ld, a)
  {
  }

  /** The record after the payload loop, item by item in payload order. */
  function Patched(ld: Lead, payload: seq<Update>): Lead
    decreases |payload|
  {
    if payload == [] then ld
    else Apply(Patched(ld, payload[..|payload| - 1]), payload[|payload| - 1])
  }

  /** Some item of the payload names attribute `a`. */
  predicate Names(payload: seq<Update>, a: Attr) {
    exists i :: 0 <= i < |payload| && Target(payload[i]) == Some(a)
  }

  /** An attribute the payload does not name keeps its value. */
  lemma {:induction false} PatchedFrame(ld: Lead, payload: seq<Update>, a: Attr)
    requires !Names(payload, a)
    ensures Get(Patched(ld, payload), a) == Get(ld, a)
    decreases |payload|
  {
    if payload != [] {
      var init := payload[..|payload| - 1];
      assert !Names(init, a) by {
        forall i | 0 <= i < |init| ensures Target(init[i]) != Some(a) {
          assert init[i] == payload[i];
        }
      }
      PatchedFrame(ld, init, a);
      assert Target(payload[|payload| - 1]) != Some(a);
      ApplyGet(Patched(ld, init), payload[|payload| - 1], a);
    }
  }

  /** An attribute the payload names holds the value of the last item naming it. */
  lemma {:induction false} PatchedLastWins(ld: Lead, payload: seq<Update>, a: Attr, j: int)
    requires 0 <= j < |payload| && Target(payload[j]) == Some(a)
    requires forall k :: j < k < |payload| ==> Target(payload[k]) != Some(a)
    ensures Get(Patched(ld, payload), a) == NewValue(payload[j])
    decreases |payload|
  {
    var init := payload[..|payload| - 1];
    ApplyGet(Patched(ld, init), payload[|payload| - 1], a);
    if j < |payload| - 1 {
      PatchedLastWins(ld, init, a, j);
    }
  }

  /** The record as stored: the patch, a new `updated_at`, and a score computed from the result. */
  function Rescored(ld: Lead, now: int): (r: Lead)
    ensures r.score == Score(r)
    ensures r.updatedAt == now
    ensures forall a :: a != ScoreAttr && a != UpdatedAt ==> Get(r, a) == Get(ld, a)
  {
    var stamped := ld.(updatedAt := now);
    assert SameScoredFields(stamped, stamped.(score := Score(stamped)));
    stamped.(score := Score(stamped))
  }

  /** The position of the row with primary key `id`; `|rows|` when there is none. */
  function IndexOfId(rows: seq<Lead>, id: int): (i: nat)
    ensures i <= |rows|
    ensures i < |rows| ==> rows[i].id == Some(id)
    ensures forall k :: 0 <= k < i ==> rows[k].id != Some(id)
  {
    if rows == [] then 0
    else if rows[0].id == Some(id) then 0
    else 1 + IndexOfId(rows[1..], id)
  }

  datatype UpdateOutcome = NotFound | Updated(table: seq<Lead>, lead: Lead)

  /**
   * `update_lead`: the lead with `leadId` takes the payload's values, a new
   * `updated_at` and a recomputed score, and replaces its row.
   */
  method UpdateLead(rows: seq<Lead>, leadId: int, payload: seq<Update>, now: int)
    returns (r: UpdateOutcome)
    ensures r.NotFound? <==> forall k :: 0 <= k < |rows| ==> rows[k].id != Some(leadId)
    ensures r.Updated? ==>
      var i := IndexOfId(rows, leadId);
      i < |rows| &&
      r.lead == Rescored(Patched(rows[i], payload), now) &&
      r.table == rows[i := r.lead] &&
      r.lead.score == Score(r.lead) &&
      r.lead.updatedAt == now &&
      forall a :: a != ScoreAttr && a != UpdatedAt && !Names(payload, a) ==> Get(r.lead, a) == Get(rows[i], a)
  {
    var i := IndexOfId(rows, leadId);
    if i == |rows| {
      return NotFound;
    }
    var ld := rows[i];
    for j := 0 to |payload|
      invariant ld == Patched(rows[i], payload[..j])
    {
      assert payload[..j + 1][..j] == payload[..j];
      ld := Apply(ld, payload[j]);
    }
    assert payload[..|payload|] == payload;
    ld := ld.(updatedAt := now);
    var s := ComputeScore(ld);
    ld := ld.(score := s);
    forall a | a != ScoreAttr && a != UpdatedAt && !Names(payload, a)
      ensures Get(ld, a) == Get(rows[i], a)
    {
      PatchedFrame(rows[i], payload, a);
    }
    r := Updated(rows[i := ld], ld);
  }
}
