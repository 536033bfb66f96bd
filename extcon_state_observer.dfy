/**
 * `ExtconStateObserver`: the observer of external-connector (extcon) state
 * changes. On a tablet build it tells several HDMI (and DisplayPort) ports
 * apart by giving each connector name, the first time its state file is read,
 * a tag of its own ("HDMI_0", "HDMI_1", ...) and rewriting the port kind in
 * the state text to that tag before handing it to the subclass's parser.
 *
 * The subclass's `parseState` is a function given to the observer, and its
 * `updateState` calls are recorded in order. File contents, the `NAME` and
 * `STATE` fields of a uevent and the `ro.target.product` property are
 * parameters.
 */
module ExtconStateObserver {
  import opened Wrappers
  import opened Numerals
  import opened Strings

  const HDMI: string := "HDMI"
  const DP: string := "DP"
  const TABLET: string := "tablet"

  /** `isTablet`: the product property is exactly "tablet". */
  predicate IsTablet(product: string) {
    product == TABLET
  }

  /** Characters `String.trim` removes: every code point up to the space. */
  predicate Blank(c: char) {
    c <= ' '
  }

  /** `String.trim`: blanks dropped from both ends. */
  function Trim(s: string): string
    decreases |s|
  {
    if s != [] && Blank(s[0]) then Trim(s[1..])
    else if s != [] && Blank(s[|s| - 1]) then Trim(s[..|s| - 1])
    else s
  }

  /** The trim is no longer than the text and has no blank at either end. */
  lemma {:induction false} TrimIsTrimmed(s: string)
    ensures |Trim(s)| <= |s|
    ensures Trim(s) == [] || (!Blank(Trim(s)[0]) && !Blank(Trim(s)[|Trim(s)| - 1]))
    decreases |s|
  {
    if s != [] && Blank(s[0]) {
      TrimIsTrimmed(s[1..]);
    } else if s != [] && Blank(s[|s| - 1]) {
      TrimIsTrimmed(s[..|s| - 1]);
    }
  }

  /** A text with no blank at either end is its own trim, so trimming twice is trimming once. */
  lemma TrimOfTrimmed(s: string)
    requires s == [] || (!Blank(s[0]) && !Blank(s[|s| - 1]))
    ensures Trim(s) == s
    ensures Trim(Trim(s)) == Trim(s)
  {
  }

  /** Leading blanks are dropped. */
  lemma {:induction false} TrimDropsLeading(before: string, u: string)
    requires forall k :: 0 <= k < |before| ==> Blank(before[k])
    ensures Trim(before + u) == Trim(u)
    decreases |before|
  {
    if before != [] {
      var t := before + u;
      assert t[0] == before[0];
      assert t[1..] == before[1..] + u;
      TrimDropsLeading(before[1..], u);
    } else {
      assert before + u == u;
    }
  }

  /** Trailing blanks after a trimmed text are dropped. */
  lemma {:induction false} TrimDropsTrailing(s: string, after: string)
    requires s == [] || (!Blank(s[0]) && !Blank(s[|s| - 1]))
    requires forall k :: 0 <= k < |after| ==> Blank(after[k])
    ensures Trim(s + after) == s
    decreases |after|
  {
    var t := s + after;
    if after == [] {
      assert t == s;
    } else if s == [] {
      assert t == after && t[1..] == [] + after[1..];
      TrimDropsTrailing([], after[1..]);
    } else {
      assert t[0] == s[0];
      assert t[|t| - 1] == after[|after| - 1];
      assert t[..|t| - 1] == s + after[..|after| - 1];
      TrimDropsTrailing(s, after[..|after| - 1]);
    }
  }

  /** Blanks around a trimmed text are dropped. */
  lemma TrimDropsBlanks(before: string, s: string, after: string)
    requires s == [] || (!Blank(s[0]) && !Blank(s[|s| - 1]))
    requires forall k :: 0 <= k < |before| ==> Blank(before[k])
    requires forall k :: 0 <= k < |after| ==> Blank(after[k])
    ensures Trim(before + s + after) == s
  {
    AppendAssoc(before, s, after);
    TrimDropsLeading(before, s + after);
    TrimDropsTrailing(s, after);
  }

  // ------------------------------------------------------------ tags

  /** The tag of the `k`-th connector of a kind: `kind + "_" + k`. */
  function Tag(kind: string, k: nat): string {
    kind + "_" + IntToDec(k)
  }

  lemma TagInjective(kind: string, i: nat, j: nat)
    requires Tag(kind, i) == Tag(kind, j)
    ensures i == j
  {
    var n := |kind| + 1;
    assert IntToDec(i) == Tag(kind, i)[n..];
    assert IntToDec(j) == Tag(kind, j)[n..];
    DecDigitsWellFormed(i);
    DecDigitsWellFormed(j);
  }

  /** `t` is the tag of one of the first `bound` connectors of `kind`. */
  predicate IsTagBelow(t: string, kind: string, bound: nat) {
    exists k: nat :: k < bound && t == Tag(kind, k)
  }

  /**
   * A registry as the observer keeps it: each of its `n` names carries a tag
   * numbered below `n`, and no two names share a tag.
   */
  predicate WellTagged(reg: map<string, string>, kind: string) {
    (forall name :: name in reg ==> IsTagBelow(reg[name], kind, |reg|)) &&
    (forall a, b :: a in reg && b in reg && reg[a] == reg[b] ==> a == b)
  }

  /** The registry after `name` is first seen: it gets the next number. */
  function Register(reg: map<string, string>, kind: string, name: string): (r: map<string, string>)
    ensures name in r && r.Keys == reg.Keys + {name}
    ensures forall n :: n in reg ==> r[n] == reg[n]
    ensures name !in reg ==> r[name] == Tag(kind, |reg|)
  {
    if name in reg then reg else reg[name := Tag(kind, |reg|)]
  }

  /** Registering keeps every tag already given and keeps the registry well tagged. */
  lemma RegisterKeepsTagsUnique(reg: map<string, string>, kind: string, name: string)
    requires WellTagged(reg, kind)
    ensures WellTagged(Register(reg, kind, name), kind)
  {
    if name !in reg {
      RegisterTagsBelow(reg, kind, name);
      RegisterTagsDistinct(reg, kind, name);
    }
  }

  /** A newly registered name gets a number below the grown size; the others keep theirs. */
  lemma RegisterTagsBelow(reg: map<string, string>, kind: string, name: string)
    requires name !in reg
    requires forall n :: n in reg ==> IsTagBelow(reg[n], kind, |reg|)
    ensures var r := Register(reg, kind, name); forall n :: n in r ==> IsTagBelow(r[n], kind, |r|)
  {
    var r := Register(reg, kind, name);
    assert r == reg[name := Tag(kind, |reg|)];
    assert |r| == |reg| + 1;
    forall n | n in r
      ensures IsTagBelow(r[n], kind, |r|)
    {
      if n == name {
        assert r[n] == Tag(kind, |reg|);
      } else {
        var k: nat :| k < |reg| && reg[n] == Tag(kind, k);
        assert r[n] == Tag(kind, k);
      }
    }
  }

  /** The new number is not one already given, so tags stay distinct. */
  lemma RegisterTagsDistinct(reg: map<string, string>, kind: string, name: string)
    requires name !in reg
    requires forall n :: n in reg ==> IsTagBelow(reg[n], kind, |reg|)
    requires forall a, b :: a in reg && b in reg && reg[a] == reg[b] ==> a == b
    ensures var r := Register(reg, kind, name); forall a, b :: a in r && b in r && r[a] == r[b] ==> a == b
  {
    var r := Register(reg, kind, name);
    assert r == reg[name := Tag(kind, |reg|)];
    forall a, b | a in r && b in r && r[a] == r[b]
      ensures a == b
    {
      if a == name && b != name {
        var k: nat :| k < |reg| && reg[b] == Tag(kind, k);
        TagInjective(kind, k, |reg|);
      } else if b == name && a != name {
        var k: nat :| k < |reg| && reg[a] == Tag(kind, k);
        TagInjective(kind, k, |reg|);
      } else if a != name && b != name {
        assert reg[a] == r[a] && reg[b] == r[b];
      }
    }
  }

  // ------------------------------------------------------------ what reaches parseState

  /** The two registries: HDMI connector names and DisplayPort connector names to their tags. */
  datatype Registries = Registries(hdmi: map<string, string>, dp: map<string, string>)

  predicate WellTaggedRegistries(regs: Registries) {
    WellTagged(regs.hdmi, HDMI) && WellTagged(regs.dp, DP)
  }

  predicate IsHdmiEvent(state: string, name: string) {
    Contains(state, "HDMI=") && Contains(name, ".hdmi")
  }

  predicate IsDpEvent(state: string, name: string) {
    Contains(state, "DP=") && Contains(name, ".dp")
  }

  /**
   * The registries after a state file read on trimmed `state` and `name`: on
   * a tablet an HDMI or DP name is registered in its own registry.
   */
  function Registered(product: string, regs: Registries, state: string, name: string): Registries {
    if !IsTablet(product) then regs
    else if IsHdmiEvent(state, name) then regs.(hdmi := Register(regs.hdmi, HDMI, name))
    else if IsDpEvent(state, name) then regs.(dp := Register(regs.dp, DP, name))
    else regs
  }

  /**
   * The status `parseStateFromFile` gives a name of one kind, as written: the
   * stored tag of a registered name; else the state with the kind rewritten
   * to the next tag.
   */
  function StatusAsWritten(reg: map<string, string>, kind: string, state: string, name: string): string
    requires kind != []
  {
    if name in reg then reg[name] else ReplaceAll(state, kind, Tag(kind, |reg|))
  }

  /**
   * `parseStateFromFile` as written: the text handed to `parseState` and the
   * registries afterwards.
   */
  function FromFileAsWritten(product: string, regs: Registries, stateFile: string, nameFile: string): (string, Registries) {
    var state := Trim(stateFile);
    var name := Trim(nameFile);
    var after := Registered(product, regs, state, name);
    if !IsTablet(product) then (state, after)
    else if IsHdmiEvent(state, name) then (StatusAsWritten(regs.hdmi, HDMI, state, name), after)
    else if IsDpEvent(state, name) then (StatusAsWritten(regs.dp, DP, state, name), after)
    else (state, after)
  }

  /**
   * `parseStateFromFile` as evidently intended: a name seen before has the
   * port kind in its state rewritten to its stored tag, as a first read does.
   */
  function FromFile(product: string, regs: Registries, stateFile: string, nameFile: string): (string, Registries) {
    var state := Trim(stateFile);
    var name := Trim(nameFile);
    var after := Registered(product, regs, state, name);
    if !IsTablet(product) then (state, after)
    else if IsHdmiEvent(state, name) then (ReplaceAll(state, HDMI, after.hdmi[name]), after)
    else if IsDpEvent(state, name) then (ReplaceAll(state, DP, after.dp[name]), after)
    else (state, after)
  }

  /**
   * What `onUEvent` hands to `parseState`. On a tablet an HDMI or DP event
   * is rewritten with the tag registered for its name; an unregistered name
   * makes `replaceAll` throw (a null replacement), shown as none.
   */
  function UEventInput(product: string, regs: Registries, name: string, status: string): Option<string> {
    if !IsTablet(product) then Some(status)
    else if IsHdmiEvent(status, name) then
      if name in regs.hdmi then Some(ReplaceAll(status, HDMI, regs.hdmi[name])) else None
    else if IsDpEvent(status, name) then
      if name in regs.dp then Some(ReplaceAll(status, DP, regs.dp[name])) else None
    else Some(status)
  }

  /** Off a tablet, and for states that are neither HDMI nor DP, the raw (trimmed) state is parsed. */
  lemma RawStateParsed(product: string, regs: Registries, stateFile: string, nameFile: string)
    requires !IsTablet(product) ||
      (!IsHdmiEvent(Trim(stateFile), Trim(nameFile)) && !IsDpEvent(Trim(stateFile), Trim(nameFile)))
    ensures FromFileAsWritten(product, regs, stateFile, nameFile) == (Trim(stateFile), regs)
    ensures FromFile(product, regs, stateFile, nameFile) == (Trim(stateFile), regs)
  {
  }

  /** The same for a uevent, whose state is not trimmed. */
  lemma RawEventParsed(product: string, regs: Registries, name: string, status: string)
    requires !IsTablet(product) || (!IsHdmiEvent(status, name) && !IsDpEvent(status, name))
    ensures UEventInput(product, regs, name, status) == Some(status)
  {
  }

  /**
   * A first-seen HDMI name gets tag `HDMI_k`, `k` the number of names before
   * it, and every "HDMI" in its state is rewritten to that tag; the DP
   * registry is untouched.
   */
  lemma FirstHdmiReadTagged(product: string, regs: Registries, stateFile: string, nameFile: string)
    requires IsTablet(product) && IsHdmiEvent(Trim(stateFile), Trim(nameFile))
    requires Trim(nameFile) !in regs.hdmi
    ensures var (input, after) := FromFileAsWritten(product, regs, stateFile, nameFile);
      input == ReplaceAll(Trim(stateFile), HDMI, Tag(HDMI, |regs.hdmi|)) &&
      after.hdmi == regs.hdmi[Trim(nameFile) := Tag(HDMI, |regs.hdmi|)] &&
      after.dp == regs.dp
  {
  }

  /** A first-seen DP name is tagged `DP_k` in its own registry; the HDMI registry is untouched. */
  lemma FirstDpReadTagged(product: string, regs: Registries, stateFile: string, nameFile: string)
    requires IsTablet(product) && !IsHdmiEvent(Trim(stateFile), Trim(nameFile))
    requires IsDpEvent(Trim(stateFile), Trim(nameFile)) && Trim(nameFile) !in regs.dp
    ensures var (input, after) := FromFileAsWritten(product, regs, stateFile, nameFile);
      input == ReplaceAll(Trim(stateFile), DP, Tag(DP, |regs.dp|)) &&
      after.dp == regs.dp[Trim(nameFile) := Tag(DP, |regs.dp|)] &&
      after.hdmi == regs.hdmi
  {
  }

  /** As written, a repeat read of a registered HDMI name parses the stored tag itself. */
  lemma RepeatHdmiReadParsesTag(product: string, regs: Registries, stateFile: string, nameFile: string)
    requires IsTablet(product) && IsHdmiEvent(Trim(stateFile), Trim(nameFile))
    requires Trim(nameFile) in regs.hdmi
    ensures FromFileAsWritten(product, regs, stateFile, nameFile) == (regs.hdmi[Trim(nameFile)], regs)
  {
  }

  /**
   * The discrepancy on one input: the same "HDMI=1" state of "port.hdmi"
   * reads as "HDMI_0=1" the first time and as "HDMI_0" the second.
   */
  lemma RepeatReadLosesState()
    ensures var first := FromFileAsWritten(TABLET, Registries(map[], map[]), "HDMI=1", "port.hdmi");
      var second := FromFileAsWritten(TABLET, first.1, "HDMI=1", "port.hdmi");
      first.0 == "HDMI_0=1" && second.0 == "HDMI_0" && second.0 != first.0
  {
    assert Trim("HDMI=1") == "HDMI=1";
    assert Trim("port.hdmi") == "port.hdmi";
    assert OccursAt("HDMI=1", "HDMI=", 0);
    assert OccursAt("port.hdmi", ".hdmi", 4);
    assert Tag(HDMI, 0) == "HDMI_0";
    ReplaceLeading(HDMI, "=1", "HDMI_0");
    MissingCharNotContained("=1", HDMI, 0);
    ReplaceAbsent("=1", HDMI, "HDMI_0");
    assert "HDMI=1" == HDMI + "=1";
  }

  /** A state file read keeps both registries well tagged and never changes a tag once given. */
  lemma FileReadKeepsTags(product: string, regs: Registries, state: string, name: string)
    requires WellTaggedRegistries(regs)
    ensures var after := Registered(product, regs, state, name);
      WellTaggedRegistries(after) &&
      (forall n :: n in regs.hdmi ==> n in after.hdmi && after.hdmi[n] == regs.hdmi[n]) &&
      (forall n :: n in regs.dp ==> n in after.dp && after.dp[n] == regs.dp[n])
  {
    var after := Registered(product, regs, state, name);
    if IsTablet(product) && IsHdmiEvent(state, name) {
      RegisterKeepsTagsUnique(regs.hdmi, HDMI, name);
      assert after == regs.(hdmi := Register(regs.hdmi, HDMI, name));
    } else if IsTablet(product) && IsDpEvent(state, name) {
      RegisterKeepsTagsUnique(regs.dp, DP, name);
      assert after == regs.(dp := Register(regs.dp, DP, name));
    } else {
      assert after == regs;
    }
  }

  /**
   * With the intended reading, a state file read and a uevent carrying the
   * same name and state hand the same text to `parseState`.
   */
  lemma FileReadAgreesWithUEvent(product: string, regs: Registries, stateFile: string, nameFile: string)
    ensures var (input, after) := FromFile(product, regs, stateFile, nameFile);
      UEventInput(product, after, Trim(nameFile), Trim(stateFile)) == Some(input)
  {
  }

  /** With the intended reading, reading the same files again gives the same text and registries. */
  lemma RepeatReadStable(product: string, regs: Registries, stateFile: string, nameFile: string)
    ensures var first := FromFile(product, regs, stateFile, nameFile);
      FromFile(product, first.1, stateFile, nameFile) == first
  {
  }

  /** A tablet HDMI or DP uevent for a name never read from its files fails. */
  lemma UnregisteredEventFails(product: string, regs: Registries, name: string, status: string)
    requires IsTablet(product)
    requires (IsHdmiEvent(status, name) && name !in regs.hdmi) ||
      (!IsHdmiEvent(status, name) && IsDpEvent(status, name) && name !in regs.dp)
    ensures UEventInput(product, regs, name, status).None?
  {
  }

  // ------------------------------------------------------------ the observer

  /** The observer with its two registries and the `updateState` calls made so far. */
  class Observer<S> {
    var hdmiStates: map<string, string>
    var dpStates: map<string, string>
    var updates: seq<(string, S)>
    /** The subclass's `parseState`; none is its null. */
    const parse: string -> Option<S>

    function Regs(): Registries
      reads this`hdmiStates, this`dpStates
    {
      Registries(hdmiStates, dpStates)
    }

    ghost predicate Valid()
      reads this`hdmiStates, this`dpStates
    {
      WellTaggedRegistries(Regs())
    }

    constructor(parse: string -> Option<S>)
      ensures Valid() && Regs() == Registries(map[], map[]) && updates == []
      ensures this.parse == parse
    {
      this.parse := parse;
      hdmiStates := map[];
      dpStates := map[];
      updates := [];
    }

    /** `parseStateFromFile`. */
    method ParseStateFromFile(product: string, stateFile: string, nameFile: string) returns (r: Option<S>)
      requires Valid()
      modifies this`hdmiStates, this`dpStates
      ensures Valid()
      ensures Regs() == FromFileAsWritten(product, old(Regs()), stateFile, nameFile).1
      ensures r == parse(FromFileAsWritten(product, old(Regs()), stateFile, nameFile).0)
    {
      ghost var before := Regs();
      var state := Trim(stateFile);
      var name := Trim(nameFile);
      var status := state;
      if IsTablet(product) && IsHdmiEvent(state, name) {
        status, hdmiStates := TagStatus(hdmiStates, HDMI, state, name);
      } else if IsTablet(product) && IsDpEvent(state, name) {
        status, dpStates := TagStatus(dpStates, DP, state, name);
      }
      assert (status, Regs()) == FromFileAsWritten(product, before, stateFile, nameFile);
      FileReadKeepsTags(product, before, state, name);
      r := parse(status);
    }

    /** The lookup-or-register step `parseStateFromFile` takes for each kind. */
    static method TagStatus(reg: map<string, string>, kind: string, state: string, name: string)
      returns (status: string, after: map<string, string>)
      requires kind != []
      ensures status == StatusAsWritten(reg, kind, state, name) && after == Register(reg, kind, name)
    {
      if name in reg {
        status := reg[name];
        after := reg;
      } else {
        status := ReplaceAll(state, kind, Tag(kind, |reg|));
        after := reg[name := Tag(kind, |reg|)];
      }
    }

    /**
     * `onUEvent`: `updateState` is called when the parsed state is not null;
     * `threw` when `replaceAll` is given the tag of an unregistered name.
     */
    method OnUEvent(product: string, name: string, status: string) returns (threw: bool)
      modifies this
      ensures Regs() == old(Regs())
      ensures threw <==> UEventInput(product, old(Regs()), name, status).None?
      ensures updates == old(updates) + match UEventInput(product, old(Regs()), name, status)
        case None => []
        case Some(input) => (match parse(input) case None => [] case Some(st) => [(name, st)])
    {
      var state: Option<S> := None;
      if IsTablet(product) {
        if IsHdmiEvent(status, name) {
          if name !in hdmiStates {
            return true;
          }
          var newState := ReplaceAll(status, HDMI, hdmiStates[name]);
          state := parse(newState);
        } else if IsDpEvent(status, name) {
          if name !in dpStates {
            return true;
          }
          var newState := ReplaceAll(status, DP, dpStates[name]);
          state := parse(newState);
        } else {
          state := parse(status);
        }
      } else {
        state := parse(status);
      }
      if state.Some? {
        updates := updates + [(name, state.value)];
      }
      return false;
    }
  }
}
