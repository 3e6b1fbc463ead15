/** The property and broker lists of the deal tracker: save, delete and the
    property search, as pure functions of the list they update. */
module Crm {
  import opened Wrappers
  import Seqs
  import Text
  import Metrics
  import opened Records

  /** The property form's fields, all text as the form's inputs deliver them,
      plus the ids of associated brokers. */
  datatype PropertyFields = PropertyFields(
    address: string,
    squareFeet: string,
    baseRentPerSqft: string,
    monthlyRent: string,
    exitCapRate: string,
    debtServicePerMonth: string,
    purchasePrice: string,
    equityInvested: string,
    crexi: string,
    notes: string,
    brokers: seq<Id>)

  /** The broker form's fields. */
  datatype BrokerFields = BrokerFields(name: string, email: string, phone: string, conversations: string)

  type Property = Stored<PropertyFields>
  type Broker = Stored<BrokerFields>

  const MissingAddress: string := "Please enter an address"
  const MissingBrokerName: string := "Please enter broker name"

  /** `handleSaveProperty`: refused with the alert's message when the address
      is empty; otherwise the edit-or-add update of the list. */
  function SaveProperty(list: seq<Property>, form: PropertyFields, editingId: Option<Id>, freshId: Id)
    : (r: Result<seq<Property>, string>)
    ensures r.Failure? <==> form.address == ""
    ensures r.Failure? ==> r.error == MissingAddress
    ensures r.Success? ==> r.value == Upsert(list, form, editingId, freshId)
  {
    if form.address == "" then Failure(MissingAddress)
    else Success(Upsert(list, form, editingId, freshId))
  }

  /** `handleDeleteProperty` */
  function DeleteProperty(list: seq<Property>, id: Id): (r: seq<Property>)
    ensures forall p :: p in r ==> p in list && p.id != id
    ensures forall i :: 0 <= i < |list| && list[i].id != id ==> list[i] in r
  {
    RemoveById(list, id)
  }

  /** `handleSaveBroker`: as for properties, with the name as required field. */
  function SaveBroker(list: seq<Broker>, form: BrokerFields, editingId: Option<Id>, freshId: Id)
    : (r: Result<seq<Broker>, string>)
    ensures r.Failure? <==> form.name == ""
    ensures r.Failure? ==> r.error == MissingBrokerName
    ensures r.Success? ==> r.value == Upsert(list, form, editingId, freshId)
  {
    if form.name == "" then Failure(MissingBrokerName)
    else Success(Upsert(list, form, editingId, freshId))
  }

  /** `handleDeleteBroker` */
  function DeleteBroker(list: seq<Broker>, id: Id): (r: seq<Broker>)
    ensures forall b :: b in r ==> b in list && b.id != id
    ensures forall i :: 0 <= i < |list| && list[i].id != id ==> list[i] in r
  {
    RemoveById(list, id)
  }

  /** What the property list keeps true: every property has an address and
      no two share an id. */
  ghost predicate ValidProperties(list: seq<Property>) {
    && UniqueIds(list)
    && forall i :: 0 <= i < |list| ==> list[i].fields.address != ""
  }

  /** What the broker list keeps true: every broker has a name and no two
      share an id. */
  ghost predicate ValidBrokers(list: seq<Broker>) {
    && UniqueIds(list)
    && forall i :: 0 <= i < |list| ==> list[i].fields.name != ""
  }

  /** The id `Date.now()` supplies in add mode is not in use. */
  ghost predicate FreshFor<T>(list: seq<Stored<T>>, editingId: Option<Id>, freshId: Id) {
    !IsEditing(editingId) ==> forall i :: 0 <= i < |list| ==> list[i].id != freshId
  }

  /** A successful save keeps the property list valid. */
  lemma SavePropertyKeepsValid(list: seq<Property>, form: PropertyFields, editingId: Option<Id>, freshId: Id)
    requires ValidProperties(list)
    requires FreshFor(list, editingId, freshId)
    ensures SaveProperty(list, form, editingId, freshId).Success? ==>
      ValidProperties(SaveProperty(list, form, editingId, freshId).value)
  {
  }

  /** Deleting keeps the property list valid. */
  lemma DeletePropertyKeepsValid(list: seq<Property>, id: Id)
    requires ValidProperties(list)
    ensures ValidProperties(DeleteProperty(list, id))
  {
    RemoveKeepsUnique(list, id);
    var r := DeleteProperty(list, id);
    forall i | 0 <= i < |r| ensures r[i].fields.address != "" {
      assert r[i] in r;
    }
  }

  /** A successful save keeps the broker list valid. */
  lemma SaveBrokerKeepsValid(list: seq<Broker>, form: BrokerFields, editingId: Option<Id>, freshId: Id)
    requires ValidBrokers(list)
    requires FreshFor(list, editingId, freshId)
    ensures SaveBroker(list, form, editingId, freshId).Success? ==>
      ValidBrokers(SaveBroker(list, form, editingId, freshId).value)
  {
  }

  /** Deleting keeps the broker list valid. */
  lemma DeleteBrokerKeepsValid(list: seq<Broker>, id: Id)
    requires ValidBrokers(list)
    ensures ValidBrokers(DeleteBroker(list, id))
  {
    RemoveKeepsUnique(list, id);
    var r := DeleteBroker(list, id);
    forall i | 0 <= i < |r| ensures r[i].fields.name != "" {
      assert r[i] in r;
    }
  }

  /** The search predicate: the lower-cased address or Crexi link includes
      the lower-cased search term. */
  function Matches(p: Property, term: string): (b: bool)
    ensures b <==> Mentions(p, term)
  {
    || Text.Includes(Text.Lower(p.fields.address), Text.Lower(term))
    || Text.Includes(Text.Lower(p.fields.crexi), Text.Lower(term))
  }

  /** The term occurs, ignoring letter case, in the address or the Crexi link. */
  ghost predicate Mentions(p: Property, term: string) {
    || Text.IsSubstring(Text.Lower(term), Text.Lower(p.fields.address))
    || Text.IsSubstring(Text.Lower(term), Text.Lower(p.fields.crexi))
  }

  /** `filteredProperties`: exactly the properties that mention the term. */
  function FilterProperties(list: seq<Property>, term: string): (r: seq<Property>)
    ensures forall p :: p in r ==> p in list && Mentions(p, term)
    ensures forall i :: 0 <= i < |list| && Mentions(list[i], term) ==> list[i] in r
  {
    Seqs.Filter(list, (p: Property) => Matches(p, term))
  }

  /** The search result is the list with the non-matching properties deleted:
      order is kept and each match appears as often as in the list. */
  lemma FilterPropertiesExact(list: seq<Property>, term: string, p: Property)
    ensures Seqs.IsSubsequence(FilterProperties(list, term), list)
    ensures multiset(FilterProperties(list, term))[p] == if Matches(p, term) then multiset(list)[p] else 0
  {
    Seqs.FilterIsSubsequence(list, (q: Property) => Matches(q, term));
    Seqs.FilterCounts(list, (q: Property) => Matches(q, term), p);
  }

  /** An empty search term shows every property. */
  lemma EmptySearchShowsAll(list: seq<Property>)
    ensures FilterProperties(list, "") == list
  {
    forall i | 0 <= i < |list| ensures Matches(list[i], "") {
      Text.IncludesEmpty(Text.Lower(list[i].fields.address));
    }
    Seqs.FilterKeepsAll(list, (q: Property) => Matches(q, ""));
  }

  /** The search ignores the letter case of the term. */
  lemma SearchIgnoresTermCase(list: seq<Property>, term: string)
    ensures FilterProperties(list, Text.Lower(term)) == FilterProperties(list, term)
  {
    Text.LowerIdempotent(term);
    Seqs.FilterCongruent(list, (q: Property) => Matches(q, Text.Lower(term)), (q: Property) => Matches(q, term));
  }

  /** The numeric inputs of a property, each through `parseFloat` (`parse`,
      which is not modelled beyond its result). */
  function InputsOf(p: PropertyFields, parse: string -> Option<real>): Metrics.DealInputs
  {
    Metrics.DealInputs(
      parse(p.squareFeet), parse(p.baseRentPerSqft), parse(p.monthlyRent),
      parse(p.purchasePrice), parse(p.equityInvested), parse(p.debtServicePerMonth))
  }

  /** The form `handleAddProperty` opens: every field empty, no brokers. */
  const BlankProperty: PropertyFields := PropertyFields("", "", "", "", "", "", "", "", "", "", [])

  /** A property saved from an untouched numeric form shows no rent, no NOI
      and 'N/A' for every ratio, since `parseFloat('')` is `NaN`. */
  lemma BlankFormShowsNoFigures(address: string, crexi: string, parse: string -> Option<real>)
    requires parse("") == None
    ensures Metrics.Calculate(InputsOf(BlankProperty.(address := address, crexi := crexi), parse))
      == Metrics.DealMetrics(0.0, Metrics.NA, Metrics.NA, Metrics.NA, 0.0)
  {
  }
}
