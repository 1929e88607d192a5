/** pkg/dcgm/policy.go: which conditions a policy registration asks for, and how they are set. */
module Policy {
  import opened Wrappers

  /** The seven conditions; each has its own callback channel and its own index. */
  datatype Condition = Dbe | Pcie | MaxRtPg | Thermal | Power | Nvlink | Xid

  const CONDITIONS: seq<Condition> := [Dbe, Pcie, MaxRtPg, Thermal, Power, Nvlink, Xid]
  const COND_MAX: nat := 7

  /** policyIndex: the position in the parameter array of dcgmPolicy_t. */
  function Index(c: Condition): nat {
    match c
    case Dbe => 0 case Pcie => 1 case MaxRtPg => 2 case Thermal => 3 case Power => 4 case Nvlink => 5 case Xid => 6
  }

  /** The DCGM_POLICY_COND_* flag. */
  function Flag(c: Condition): bv32 {
    match c
    case Dbe => 0x1 case Pcie => 0x2 case MaxRtPg => 0x4 case Thermal => 0x8
    case Power => 0x10 case Nvlink => 0x20 case Xid => 0x40
  }

  /** The policyCondition constants. */
  function Name(c: Condition): string {
    match c
    case Dbe => "Double-bit ECC error" case Pcie => "PCI error" case MaxRtPg => "Max Retired Pages Limit"
    case Thermal => "Thermal Limit" case Power => "Power Limit" case Nvlink => "Nvlink Error" case Xid => "XID Error"
  }

  /** A policyCondition is a string; any other string is one the registration ignores. */
  function Recognise(typ: string): Option<Condition> {
    if typ == "Double-bit ECC error" then Some(Dbe)
    else if typ == "PCI error" then Some(Pcie)
    else if typ == "Max Retired Pages Limit" then Some(MaxRtPg)
    else if typ == "Thermal Limit" then Some(Thermal)
    else if typ == "Power Limit" then Some(Power)
    else if typ == "Nvlink Error" then Some(Nvlink)
    else if typ == "XID Error" then Some(Xid)
    else None
  }

  /** The condition a DCGM callback reports: its flag must match exactly. */
  function Reported(condition: bv32): Option<Condition> {
    if condition == 0x1 then Some(Dbe)
    else if condition == 0x2 then Some(Pcie)
    else if condition == 0x4 then Some(MaxRtPg)
    else if condition == 0x8 then Some(Thermal)
    else if condition == 0x10 then Some(Power)
    else if condition == 0x20 then Some(Nvlink)
    else if condition == 0x40 then Some(Xid)
    else None
  }

  /** The recognised ones of the requested policies, in order. */
  function Recognised(typ: seq<string>): seq<Condition> {
    if typ == [] then []
    else
      Recognised(typ[..|typ| - 1])
      + (if Recognise(typ[|typ| - 1]).Some? then [Recognise(typ[|typ| - 1]).value] else [])
  }

  // ----- names, indexes and flags

  /** A request for a condition is its name, letter by letter. */
  lemma RecogniseIsName(t: string, c: Condition)
    ensures Recognise(t) == Some(c) <==> t == Name(c)
    ensures Recognise(t) == None <==> forall d: Condition :: t != Name(d)
  {
    NamesTable();
    if Recognise(t) == None {
      forall d: Condition ensures t != Name(d) { NameOf(d); }
    }
    NameOf(c);
  }

  lemma NameOf(c: Condition)
    ensures Recognise(Name(c)) == Some(c)
  {
    NamesTable();
  }

  /** Names, indexes and flags as DCGM and the constants of the package have them; no two names agree. */
  lemma NamesTable()
    ensures Name(Dbe) == "Double-bit ECC error" && Index(Dbe) == 0 && Flag(Dbe) == 0x1
    ensures Name(Pcie) == "PCI error" && Index(Pcie) == 1 && Flag(Pcie) == 0x2
    ensures Name(MaxRtPg) == "Max Retired Pages Limit" && Index(MaxRtPg) == 2 && Flag(MaxRtPg) == 0x4
    ensures Name(Thermal) == "Thermal Limit" && Index(Thermal) == 3 && Flag(Thermal) == 0x8
    ensures Name(Power) == "Power Limit" && Index(Power) == 4 && Flag(Power) == 0x10
    ensures Name(Nvlink) == "Nvlink Error" && Index(Nvlink) == 5 && Flag(Nvlink) == 0x20
    ensures Name(Xid) == "XID Error" && Index(Xid) == 6 && Flag(Xid) == 0x40
    ensures forall c: Condition, d: Condition :: Name(c) == Name(d) ==> c == d
  {
    assert |Name(Dbe)| == 20 && |Name(Pcie)| == 9 && |Name(MaxRtPg)| == 23;
    assert |Name(Thermal)| == 13 && |Name(Power)| == 11 && |Name(Nvlink)| == 12 && |Name(Xid)| == 9;
    assert Name(Pcie)[0] == 'P' && Name(Xid)[0] == 'X';
  }

  function NamesOf(cs: seq<Condition>): (r: seq<string>)
    ensures |r| == |cs| && forall k :: 0 <= k < |r| ==> r[k] == Name(cs[k])
  {
    if cs == [] then [] else NamesOf(cs[..|cs| - 1]) + [Name(cs[|cs| - 1])]
  }

  /** A condition is among the recognised ones exactly when its name was requested. */
  lemma {:induction false} RequestedIff(typ: seq<string>, c: Condition)
    ensures c in Recognised(typ) <==> Name(c) in typ
  {
    if typ != [] {
      var front, last := typ[..|typ| - 1], typ[|typ| - 1];
      RequestedIff(front, c);
      RecogniseIsName(last, c);
      assert typ == front + [last];
    }
  }

  lemma RecognisedPush(typ: seq<string>, t: string)
    ensures Recognised(typ + [t])
         == Recognised(typ) + (if Recognise(t).Some? then [Recognise(t).value] else [])
  {
    assert (typ + [t])[..|typ|] == typ;
  }

  /** Requests that are all names are recognised one by one, in order and with repetitions. */
  lemma {:induction false} RecognisedNames(cs: seq<Condition>)
    ensures Recognised(NamesOf(cs)) == cs
  {
    if cs != [] {
      var front, last := cs[..|cs| - 1], cs[|cs| - 1];
      RecognisedNames(front);
      RecognisedNext(NamesOf(front), front, last);
      NamesPush(front, last);
      assert cs == front + [last];
    }
  }

  lemma RecognisedNext(typ: seq<string>, cs: seq<Condition>, c: Condition)
    requires Recognised(typ) == cs
    ensures Recognised(typ + [Name(c)]) == cs + [c]
  {
    NameOf(c);
    RecognisedPush(typ, Name(c));
  }

  lemma NamesPush(cs: seq<Condition>, c: Condition)
    ensures NamesOf(cs + [c]) == NamesOf(cs) + [Name(c)]
  {
    assert (cs + [c])[..|cs|] == cs;
  }

  /** The flag of a condition is bit number Index(c). */
  lemma FlagIsBit(c: Condition)
    ensures Flag(c) == 1 << Index(c) && Index(c) < 7
  {
  }

  function Indexes(cs: seq<Condition>): (r: seq<nat>)
    ensures |r| == |cs|
    ensures forall k :: 0 <= k < |cs| ==> r[k] == Index(cs[k])
  {
    if cs == [] then [] else Indexes(cs[..|cs| - 1]) + [Index(cs[|cs| - 1])]
  }

  function Mask(cs: seq<Condition>): bv32 {
    if cs == [] then 0 else Mask(cs[..|cs| - 1]) | Flag(cs[|cs| - 1])
  }

  /** Bit c of a condition mask. */
  predicate HasBit(mask: bv32, c: Condition) { mask & Flag(c) != 0 }

  lemma SelectionGrows(cs: seq<Condition>, c: Condition)
    ensures Indexes(cs + [c]) == Indexes(cs) + [Index(c)] && Mask(cs + [c]) == Mask(cs) | Flag(c)
  {
    assert (cs + [c])[..|cs|] == cs;
  }

  /** The switch of the selection loop: one index, one flag and one channel in each case. */
  method SelectCondition(t: string, keys: seq<nat>, mask: bv32, chans: seq<Condition>)
      returns (paramKeys: seq<nat>, condition: bv32, channels: seq<Condition>)
    ensures var c := Recognise(t);
            && paramKeys == (if c.Some? then keys + [Index(c.value)] else keys)
            && condition == (if c.Some? then mask | Flag(c.value) else mask)
            && channels == (if c.Some? then chans + [c.value] else chans)
  {
    paramKeys, condition, channels := keys, mask, chans;
    if t == "Double-bit ECC error" {
      paramKeys, condition, channels := paramKeys + [0], condition | 0x1, channels + [Dbe];
    } else if t == "PCI error" {
      paramKeys, condition, channels := paramKeys + [1], condition | 0x2, channels + [Pcie];
    } else if t == "Max Retired Pages Limit" {
      paramKeys, condition, channels := paramKeys + [2], condition | 0x4, channels + [MaxRtPg];
    } else if t == "Thermal Limit" {
      paramKeys, condition, channels := paramKeys + [3], condition | 0x8, channels + [Thermal];
    } else if t == "Power Limit" {
      paramKeys, condition, channels := paramKeys + [4], condition | 0x10, channels + [Power];
    } else if t == "Nvlink Error" {
      paramKeys, condition, channels := paramKeys + [5], condition | 0x20, channels + [Nvlink];
    } else if t == "XID Error" {
      paramKeys, condition, channels := paramKeys + [6], condition | 0x40, channels + [Xid];
    }
  }

  /** The selection loop of registerPolicy: three accumulators fed by one switch. */
  method SelectConditions(typ: seq<string>) returns (paramKeys: seq<nat>, condition: bv32, channels: seq<Condition>)
    ensures channels == Recognised(typ)
    ensures paramKeys == Indexes(Recognised(typ))
    ensures condition == Mask(Recognised(typ))
    ensures forall c: Condition ::
              (HasBit(condition, c) <==> Index(c) in paramKeys) && (HasBit(condition, c) <==> c in channels)
    ensures forall c: Condition :: c in channels <==> Name(c) in typ
  {
    paramKeys, condition, channels := [], 0, [];
    for i := 0 to |typ|
      invariant Selected(typ[..i], paramKeys, condition, channels)
    {
      SelectionStep(typ, i);
      paramKeys, condition, channels := SelectCondition(typ[i], paramKeys, condition, channels);
    }
    assert typ[..|typ|] == typ;
    MaskMembership(channels);
    forall c: Condition ensures c in channels <==> Name(c) in typ { RequestedIff(typ, c); }
  }

  /** The accumulators after these requests. */
  ghost predicate Selected(typ: seq<string>, paramKeys: seq<nat>, condition: bv32, channels: seq<Condition>) {
    channels == Recognised(typ) && paramKeys == Indexes(Recognised(typ)) && condition == Mask(Recognised(typ))
  }

  lemma SelectionStep(typ: seq<string>, i: nat)
    requires i < |typ|
    ensures var before, after, c := Recognised(typ[..i]), Recognised(typ[..i + 1]), Recognise(typ[i]);
            && after == (if c.Some? then before + [c.value] else before)
            && Indexes(after) == (if c.Some? then Indexes(before) + [Index(c.value)] else Indexes(before))
            && Mask(after) == (if c.Some? then Mask(before) | Flag(c.value) else Mask(before))
  {
    assert typ[..i + 1][..i] == typ[..i];
    if Recognise(typ[i]).Some? { SelectionGrows(Recognised(typ[..i]), Recognise(typ[i]).value); }
  }

  lemma OrBit(mask: bv32, d: Condition, c: Condition)
    ensures HasBit(mask | Flag(d), c) <==> HasBit(mask, c) || d == c
  {
    assert (mask | Flag(d)) & Flag(c) == (mask & Flag(c)) | (Flag(d) & Flag(c));
  }

  lemma {:induction false} MaskHas(cs: seq<Condition>, c: Condition)
    ensures HasBit(Mask(cs), c) <==> c in cs
  {
    if cs != [] {
      var front, last := cs[..|cs| - 1], cs[|cs| - 1];
      MaskHas(front, c);
      OrBit(Mask(front), last, c);
      assert cs == front + [last];
    }
  }

  lemma {:induction false} IndexesHave(cs: seq<Condition>, c: Condition)
    ensures Index(c) in Indexes(cs) <==> c in cs
  {
    if cs != [] {
      var front, last := cs[..|cs| - 1], cs[|cs| - 1];
      IndexesHave(front, c);
      IndexInjective(c, last);
      assert cs == front + [last];
    }
  }

  /** Bit c of the mask, index c among the keys, and channel c in the list all mean the same. */
  lemma MaskMembership(cs: seq<Condition>)
    ensures forall c: Condition :: (HasBit(Mask(cs), c) <==> c in cs) && (Index(c) in Indexes(cs) <==> c in cs)
  {
    forall c: Condition ensures (HasBit(Mask(cs), c) <==> c in cs) && (Index(c) in Indexes(cs) <==> c in cs) {
      MaskHas(cs, c);
      IndexesHave(cs, c);
    }
  }

  lemma IndexInjective(c: Condition, d: Condition)
    ensures Index(c) == Index(d) ==> c == d
    ensures Index(c) < COND_MAX && CONDITIONS[Index(c)] == c
  {
  }

  /** A callback's flag names one condition, and each condition is named by its own flag only. */
  lemma ReportedIsFlag(condition: bv32, c: Condition)
    ensures Reported(condition) == Some(c) <==> condition == Flag(c)
  {
  }

  // ----- setting the parameters

  datatype Tag = Bool | Long
  datatype Param = Param(tag: Tag, value: nat)

  /** makePolicyParmsMap */
  function ParamMap(): (m: map<nat, Param>)
    ensures forall c: Condition :: Index(c) in m
    ensures forall k :: k in m ==> k < COND_MAX
  {
    map[0 := Param(Bool, 1), 1 := Param(Bool, 1), 2 := Param(Long, 10), 3 := Param(Long, 100),
        4 := Param(Long, 250), 5 := Param(Bool, 1), 6 := Param(Bool, 1)]
  }

  /** The tag and value or threshold of each condition's parameter. */
  lemma ParamTable()
    ensures forall c: Condition :: Index(c) in ParamMap() &&
              ParamMap()[Index(c)] == match c
                case MaxRtPg => Param(Long, 10) case Thermal => Param(Long, 100) case Power => Param(Long, 250)
                case _ => Param(Bool, 1)
    ensures ParamMap().Keys == {0, 1, 2, 3, 4, 5, 6}
  {
  }

  /** The key loop of setPolicy, writing the array inside dcgmPolicy_t. It stops at a key without an entry; for
      the keys collected by a registration it never does, and it sets exactly the selected parameters. */
  method SetParameters(paramMap: map<nat, Param>, paramList: seq<nat>, parms: array<Param>)
      returns (missing: Option<nat>)
    requires parms.Length == COND_MAX && forall k :: k in paramMap ==> k < COND_MAX
    modifies parms
    ensures missing.None? <==> forall k :: k in paramList ==> k in paramMap
    ensures missing.Some? ==> missing.value in paramList && missing.value !in paramMap
    ensures missing.None? ==> forall k :: 0 <= k < COND_MAX ==>
                parms[k] == if k in paramList then paramMap[k] else old(parms[k])
  {
    for i := 0 to |paramList|
      invariant forall k :: k in paramList[..i] ==> k in paramMap
      invariant forall k :: 0 <= k < COND_MAX ==> parms[k] == if k in paramList[..i] then paramMap[k] else old(parms[k])
    {
      var key := paramList[i];
      assert paramList[..i + 1] == paramList[..i] + [key];
      if key !in paramMap {
        return Some(key);
      }
      parms[key] := Param(paramMap[key].tag, paramMap[key].value);
    }
    assert paramList[..|paramList|] == paramList;
    missing := None;
  }

  /** Registration and parameter setting together: no key is missing or out of range, whatever was requested,
      and a parameter is set exactly when its bit is in the mask passed along. */
  method ConfigurePolicy(typ: seq<string>, parms: array<Param>)
      returns (missing: Option<nat>, condition: bv32, channels: seq<Condition>)
    requires parms.Length == COND_MAX
    modifies parms
    ensures missing.None? && channels == Recognised(typ)
    ensures forall c: Condition :: HasBit(condition, c) <==> c in channels
    ensures forall c: Condition :: parms[Index(c)] == if HasBit(condition, c) then ParamMap()[Index(c)]
        else old(parms[Index(c)])
    ensures forall c: Condition :: HasBit(condition, c) <==> Name(c) in typ
  {
    var paramKeys;
    paramKeys, condition, channels := SelectConditions(typ);
    forall k | k in paramKeys ensures k in ParamMap() {
      var j :| 0 <= j < |paramKeys| && paramKeys[j] == k;
    }
    missing := SetParameters(ParamMap(), paramKeys, parms);
    forall c: Condition
        ensures parms[Index(c)] == if HasBit(condition, c) then ParamMap()[Index(c)] else old(parms[Index(c)]) {
      IndexInjective(c, c);
    }
  }
}
