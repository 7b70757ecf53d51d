/**
 * The severity-driven assignment policy of the add_group action: which owner
 * and which members an incident gets for its severity label, and how the two
 * record rewrites behave on the record they are given.
 *
 * The rewrites are defined here through the configuration's naming scheme
 * (`<tier>_owner`, `<tier>_member_<n>`), independently of the literal keys
 * the handler spells out; Incident.IncidentCopy carries the handler's own
 * branches and is proved against these definitions.
 */
module Policy {
  import opened Wrappers
  import opened Values
  import Decimal

  const OwnerField := "owner_id"
  const MembersField := "members"

  /** A resolved severity label: the three tiers the policy knows, or anything else. */
  datatype Severity = High | Medium | Low | Other(name: string)

  predicate Known(sev: Severity) {
    !sev.Other?
  }

  /** The handler compares the label with `==`, so the match is exact and case-sensitive. */
  function Classify(text: string): Severity {
    if text == "High" then High
    else if text == "Medium" then Medium
    else if text == "Low" then Low
    else Other(text)
  }

  function Label(sev: Severity): string {
    match sev
    case High => "High"
    case Medium => "Medium"
    case Low => "Low"
    case Other(name) => name
  }

  /** Classifying loses nothing: the label can always be read back. */
  lemma ClassifyLabel(text: string)
    ensures Label(Classify(text)) == text
  {
  }

  /** Every severity whose label is not one of the three tier names is what Classify gives for its label. */
  lemma LabelClassify(sev: Severity)
    requires sev.Other? ==> sev.name != "High" && sev.name != "Medium" && sev.name != "Low"
    ensures Classify(Label(sev)) == sev
  {
  }

  /** The flat key/value table of the component's configuration section. */
  type Options = map<string, string>

  /** `options.get(key)`: the configured token, or None when the key is missing. */
  function Get(options: Options, key: string): Value {
    if key in options then Str(options[key]) else Null
  }

  /** The lower-case tier name that prefixes a tier's configuration keys. */
  function TierName(sev: Severity): string
    requires Known(sev)
  {
    match sev
    case High => "high"
    case Medium => "medium"
    case Low => "low"
  }

  /** How many members a tier assigns. */
  function TierSize(sev: Severity): nat
    requires Known(sev)
  {
    match sev
    case High => 1
    case Medium => 2
    case Low => 3
  }

  function OwnerKey(sev: Severity): string
    requires Known(sev)
  {
    TierName(sev) + "_owner"
  }

  /** The key of the `i`-th member of a tier, counting from 1. */
  function MemberKey(sev: Severity, i: nat): string
    requires Known(sev)
  {
    TierName(sev) + "_member_" + Decimal.NatToString(i)
  }

  /** The owner a recognised severity assigns; None means "leave the record alone". */
  function OwnerFor(sev: Severity, options: Options): Option<Value> {
    if Known(sev) then Some(Get(options, OwnerKey(sev))) else None
  }

  /** The options read at a tier's first `n` member keys, in key order. */
  function MemberValues(sev: Severity, options: Options, n: nat): (vs: seq<Value>)
    requires Known(sev)
    ensures |vs| == n
    ensures forall i :: 0 <= i < n ==> vs[i] == Get(options, MemberKey(sev, i + 1))
  {
    if n == 0 then [] else MemberValues(sev, options, n - 1) + [Get(options, MemberKey(sev, n))]
  }

  /** The members a recognised severity assigns, in key order; None means "leave the record alone". */
  function MembersFor(sev: Severity, options: Options): (members: Option<seq<Value>>)
    ensures members.Some? <==> Known(sev)
    ensures members.Some? ==> |members.value| == TierSize(sev)
    ensures members.Some? ==>
              forall i :: 0 <= i < |members.value| ==> members.value[i] == Get(options, MemberKey(sev, i + 1))
  {
    if Known(sev) then
      Some(MemberValues(sev, options, TierSize(sev)))
    else
      None
  }

  /** Overwrite one field of a record, or keep the record when there is nothing to write. */
  function Assign(inc: Record, field: string, v: Option<Value>): (r: Record)
    ensures forall k :: k != field ==> SameAt(inc, r, k)
    ensures v.None? ==> r == inc
    ensures v.Some? ==> field in r && r[field] == v.value
  {
    match v
    case None => inc
    case Some(x) => inc[field := x]
  }

  /** The record after `update_owner`. */
  function OwnerUpdate(sev: Severity, options: Options, inc: Record): (r: Record)
    ensures forall k :: k != OwnerField ==> SameAt(inc, r, k)
  {
    Assign(inc, OwnerField, OwnerFor(sev, options))
  }

  /** The record after `update_members`. */
  function MembersUpdate(sev: Severity, options: Options, inc: Record): (r: Record)
    ensures forall k :: k != MembersField ==> SameAt(inc, r, k)
  {
    Assign(inc, MembersField, match MembersFor(sev, options) case None => None case Some(ms) => Some(List(ms)))
  }

  /**
   * The two record-rewriting closures of the handler, as values: each
   * captures the resolved severity and the options table.
   */
  datatype Mutation =
    | UpdateOwner(sev: Severity, options: Options)
    | UpdateMembers(sev: Severity, options: Options)
  {
    /** The one field this mutation may write. */
    function Field(): string {
      if UpdateOwner? then OwnerField else MembersField
    }

    function Apply(inc: Record): (r: Record)
      ensures forall k :: k != Field() ==> SameAt(inc, r, k)
    {
      match this
      case UpdateOwner(sev, options) => OwnerUpdate(sev, options, inc)
      case UpdateMembers(sev, options) => MembersUpdate(sev, options, inc)
    }
  }

  /** For each tier the owner comes from `high_owner`, `medium_owner` or `low_owner`. */
  lemma OwnerByTier(options: Options, inc: Record)
    ensures OwnerUpdate(High, options, inc) == inc[OwnerField := Get(options, "high_owner")]
    ensures OwnerUpdate(Medium, options, inc) == inc[OwnerField := Get(options, "medium_owner")]
    ensures OwnerUpdate(Low, options, inc) == inc[OwnerField := Get(options, "low_owner")]
    ensures "high_owner" in options ==> OwnerUpdate(High, options, inc)[OwnerField] == Str(options["high_owner"])
    ensures "high_owner" !in options ==> OwnerUpdate(High, options, inc)[OwnerField] == Null
  {
    assert OwnerKey(High) == "high_owner";
    assert OwnerKey(Medium) == "medium_owner";
    assert OwnerKey(Low) == "low_owner";
  }

  /**
   * High assigns exactly `[high_member_1]`, Medium exactly
   * `[medium_member_1, medium_member_2]`, Low exactly
   * `[low_member_1, low_member_2, low_member_3]`, in that order.
   */
  lemma MembersByTier(options: Options, inc: Record)
    ensures MembersUpdate(High, options, inc)
         == inc[MembersField := List([Get(options, "high_member_1")])]
    ensures MembersUpdate(Medium, options, inc)
         == inc[MembersField := List([Get(options, "medium_member_1"), Get(options, "medium_member_2")])]
    ensures MembersUpdate(Low, options, inc)
         == inc[MembersField := List([Get(options, "low_member_1"), Get(options, "low_member_2"), Get(options, "low_member_3")])]
  {
    assert Decimal.NatToString(1) == "1";
    assert Decimal.NatToString(2) == "2";
    assert Decimal.NatToString(3) == "3";
    assert MemberKey(High, 1) == "high_member_1";
    assert MemberValues(High, options, 1) == [Get(options, "high_member_1")];
    assert MemberKey(Medium, 1) == "medium_member_1";
    assert MemberKey(Medium, 2) == "medium_member_2";
    assert MemberValues(Medium, options, 1) == [Get(options, "medium_member_1")];
    assert MemberValues(Medium, options, 2) == [Get(options, "medium_member_1"), Get(options, "medium_member_2")];
    assert MemberKey(Low, 1) == "low_member_1";
    assert MemberKey(Low, 2) == "low_member_2";
    assert MemberKey(Low, 3) == "low_member_3";
    assert MemberValues(Low, options, 1) == [Get(options, "low_member_1")];
    assert MemberValues(Low, options, 2) == [Get(options, "low_member_1"), Get(options, "low_member_2")];
    assert MemberValues(Low, options, 3)
        == [Get(options, "low_member_1"), Get(options, "low_member_2"), Get(options, "low_member_3")];
  }

  /** A label other than "High", "Medium" and "Low" leaves the record exactly as fetched: there is no fallback branch. */
  lemma UnknownLabelIsNoOp(text: string, options: Options, inc: Record)
    requires text != "High" && text != "Medium" && text != "Low"
    ensures OwnerUpdate(Classify(text), options, inc) == inc
    ensures MembersUpdate(Classify(text), options, inc) == inc
  {
  }

  /** A recognised tier always writes its field, whatever the record held before; other labels never do. */
  lemma WritesIffKnown(sev: Severity, options: Options, inc: Record)
    ensures OwnerField in OwnerUpdate(sev, options, inc) <==> Known(sev) || OwnerField in inc
    ensures MembersField in MembersUpdate(sev, options, inc) <==> Known(sev) || MembersField in inc
    ensures Known(sev) ==> |MembersUpdate(sev, options, inc)[MembersField].items| == TierSize(sev)
  {
  }

  /** The owner written depends on the label and the options only: whatever owner the record held is overwritten. */
  lemma OwnerUpdateOverwrites(sev: Severity, options: Options, inc: Record, v: Value)
    requires Known(sev)
    ensures OwnerUpdate(sev, options, inc[OwnerField := v]) == OwnerUpdate(sev, options, inc)
  {
  }

  /** The members written depend on the label and the options only. */
  lemma MembersUpdateOverwrites(sev: Severity, options: Options, inc: Record, v: Value)
    requires Known(sev)
    ensures MembersUpdate(sev, options, inc[MembersField := v]) == MembersUpdate(sev, options, inc)
  {
  }

  lemma OwnerUpdateIdempotent(sev: Severity, options: Options, inc: Record)
    ensures OwnerUpdate(sev, options, OwnerUpdate(sev, options, inc)) == OwnerUpdate(sev, options, inc)
  {
  }

  lemma MembersUpdateIdempotent(sev: Severity, options: Options, inc: Record)
    ensures MembersUpdate(sev, options, MembersUpdate(sev, options, inc)) == MembersUpdate(sev, options, inc)
  {
  }

  /** The two rewrites touch disjoint fields, so their order does not matter, even under different labels or options. */
  lemma UpdatesCommute(s1: Severity, o1: Options, s2: Severity, o2: Options, inc: Record)
    ensures OwnerUpdate(s1, o1, MembersUpdate(s2, o2, inc)) == MembersUpdate(s2, o2, OwnerUpdate(s1, o1, inc))
  {
  }

  /**
   * What the handler's two rewrites leave in a record, owner first and
   * members second: a recognised tier sets exactly `owner_id` and `members`,
   * any other label leaves the record as it was.
   */
  lemma HandlerEffect(sev: Severity, options: Options, inc: Record)
    ensures var r := UpdateMembers(sev, options).Apply(UpdateOwner(sev, options).Apply(inc));
            && (Known(sev) ==> r == inc[OwnerField := Get(options, OwnerKey(sev))]
                                       [MembersField := List(MembersFor(sev, options).value)])
            && (!Known(sev) ==> r == inc)
  {
  }

  /**
   * The worked example: label "High" with `high_owner = u1` and
   * `high_member_1 = m1` gives owner "u1" and members ["m1"].
   */
  lemma HighExample(inc: Record)
    ensures var options := map["high_owner" := "u1", "high_member_1" := "m1"];
            var sev := Classify("High");
            var r := UpdateMembers(sev, options).Apply(UpdateOwner(sev, options).Apply(inc));
            r == inc[OwnerField := Str("u1")][MembersField := List([Str("m1")])]
  {
    var options := map["high_owner" := "u1", "high_member_1" := "m1"];
    OwnerByTier(options, inc);
    MembersByTier(options, inc[OwnerField := Get(options, "high_owner")]);
  }
}
