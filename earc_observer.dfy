/**
 * `EarcObserver`: watches the kernel's eARC uevents and tells the control service when
 * the connect type (none, ARC or eARC) changes. Classifying the state text is left to the
 * TV and audio-system subclasses, modelled here as the function `classify`.
 */
module EarcObserver {
  import opened Wrappers
  import opened Cec

  const KEY_STATE: string := "EARCTX_ARC_STATE"
  const EARC_TX_NONE_STATE: string := "0"
  const ARC_TX_ENABLE_STATE: string := "1"
  const EARC_TX_ENABLE_STATE: string := "2"
  const EARC_ARC_UNCONNECT_TYPE: int := 0
  const ARC_CONNECT_TYPE: int := 1
  const EARC_CONNECT_TYPE: int := 2

  /** `replaceAll("\n", "")`: the text with every newline removed, other characters kept in order. */
  function RemoveNewlines(s: string): (r: string)
    ensures '\n' !in r
    ensures |r| <= |s|
    ensures '\n' !in s ==> r == s
    ensures forall c :: c in r ==> c in s
  {
    if s == [] then []
    else (if s[0] == '\n' then [] else [s[0]]) + RemoveNewlines(s[1..])
  }

  /** Every character other than a newline is kept as often as the text has it. */
  lemma {:induction false} RemoveNewlinesCounts(s: string)
    ensures multiset(RemoveNewlines(s)) == multiset(s)['\n' := 0]
    decreases |s|
  {
    if s != [] {
      assert s == [s[0]] + s[1..];
      assert multiset(s) == multiset([s[0]]) + multiset(s[1..]);
      RemoveNewlinesCounts(s[1..]);
    }
  }

  /** The same filter, built from the end of the text backwards. */
  function KeepNonNewlines(s: string): string {
    if s == [] then []
    else KeepNonNewlines(s[..|s| - 1]) + (if s[|s| - 1] == '\n' then [] else [s[|s| - 1]])
  }

  /** Removing newlines from two texts one after the other is removing them from their concatenation. */
  lemma {:induction false} RemoveNewlinesAppend(a: string, b: string)
    ensures RemoveNewlines(a + b) == RemoveNewlines(a) + RemoveNewlines(b)
    decreases |a|
  {
    if a == [] {
      assert a + b == b;
    } else {
      var c, t := a[0], a[1..];
      var h := if c == '\n' then [] else [c];
      calc {
        RemoveNewlines(a + b);
      == { assert a + b == [c] + (t + b); RemoveNewlinesCons(c, t + b); }
        h + RemoveNewlines(t + b);
      == { RemoveNewlinesAppend(t, b); }
        h + (RemoveNewlines(t) + RemoveNewlines(b));
      ==
        (h + RemoveNewlines(t)) + RemoveNewlines(b);
      == { assert a == [c] + t; RemoveNewlinesCons(c, t); }
        RemoveNewlines(a) + RemoveNewlines(b);
      }
    }
  }

  /** One step of the filter: the first character is kept unless it is a newline. */
  lemma RemoveNewlinesCons(c: char, s: string)
    ensures RemoveNewlines([c] + s) == (if c == '\n' then [] else [c]) + RemoveNewlines(s)
  {
    assert ([c] + s)[0] == c && ([c] + s)[1..] == s;
  }

  /** The other characters stay, in their order: the front-to-back and back-to-front filters agree. */
  lemma {:induction false} RemoveNewlinesKeepsOrder(s: string)
    ensures RemoveNewlines(s) == KeepNonNewlines(s)
    decreases |s|
  {
    if s != [] {
      var init, last := s[..|s| - 1], s[|s| - 1];
      assert s == init + [last];
      RemoveNewlinesAppend(init, [last]);
      RemoveNewlinesKeepsOrder(init);
      assert RemoveNewlines([last]) == (if last == '\n' then [] else [last]) by {
        assert [last][1..] == [];
      }
    }
  }

  lemma RemoveNewlinesIdempotent(s: string)
    ensures RemoveNewlines(RemoveNewlines(s)) == RemoveNewlines(s)
  {
  }

  /** The observer subclass `ceateEarcObserver` builds for a device type. */
  datatype ObserverKind = TvEarcObserver | AudioSystemEarcObserver

  function CreateEarcObserver(deviceType: int): (k: Option<ObserverKind>)
    ensures k == Some(TvEarcObserver) <==> deviceType == DEVICE_TV
    ensures k == Some(AudioSystemEarcObserver) <==> deviceType == DEVICE_AUDIO_SYSTEM
    ensures k.None? <==> deviceType != DEVICE_TV && deviceType != DEVICE_AUDIO_SYSTEM
  {
    if deviceType == DEVICE_TV then Some(TvEarcObserver)
    else if deviceType == DEVICE_AUDIO_SYSTEM then Some(AudioSystemEarcObserver)
    else None
  }

  class EarcObserver {
    /** `getCurrentConnectType`, supplied by the subclass. */
    const classify: string -> int
    var currentConnectType: int
    /** The values passed to `mService.onEarcStateChanged`, in order. */
    var notified: seq<bool>

    constructor (subclassClassify: string -> int)
      ensures classify == subclassClassify
      ensures currentConnectType == EARC_ARC_UNCONNECT_TYPE && notified == []
    {
      classify := subclassClassify;
      currentConnectType := EARC_ARC_UNCONNECT_TYPE;
      notified := [];
    }

    /** `isEarcOn`. */
    function IsEarcOn(): (b: bool)
      reads this
      ensures b <==> currentConnectType == EARC_CONNECT_TYPE
    {
      currentConnectType == EARC_CONNECT_TYPE
    }

    /**
     * `onUEvent`: an event without the state key is ignored; otherwise the newline-free
     * state is classified, and only a change of connect type is stored and then reported.
     */
    method OnUEvent(event: map<string, string>)
      modifies this
      ensures KEY_STATE !in event ==> unchanged(this)
      ensures KEY_STATE in event ==>
                var t := classify(RemoveNewlines(event[KEY_STATE]));
                currentConnectType == t &&
                notified == old(notified) +
                  (if t == old(currentConnectType) then [] else [t == EARC_CONNECT_TYPE])
    {
      if KEY_STATE !in event {
        return;
      }
      var state := event[KEY_STATE];
      var connectType := classify(RemoveNewlines(state));
      if currentConnectType == connectType {
        return;
      }
      currentConnectType := connectType;
      notified := notified + [IsEarcOn()];
    }
  }
}
