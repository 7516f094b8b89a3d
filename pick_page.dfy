/** The random picker: a list of distinct options and one drawn at random. */
module Pick {
  import opened Wrappers
  import opened JsString

  /** `s.filter((_, i) => i !== index)`: every entry whose position is not `index`. */
  function WithoutIndex<T>(s: seq<T>, index: int): (r: seq<T>)
    ensures |r| <= |s|
  {
    if s == [] then []
    else (if index == 0 then [] else [s[0]]) + WithoutIndex(s[1..], index - 1)
  }

  /**
   * Removing an in-range position drops exactly that entry and keeps the other
   * entries in order; an out-of-range position keeps the list as it is.
   */
  lemma {:induction false} WithoutIndexSpec<T>(s: seq<T>, index: int)
    ensures 0 <= index < |s| ==> WithoutIndex(s, index) == s[..index] + s[index + 1..]
    ensures !(0 <= index < |s|) ==> WithoutIndex(s, index) == s
  {
    if s != [] {
      WithoutIndexSpec(s[1..], index - 1);
      if 0 < index < |s| {
        assert s[1..][..index - 1] == s[1..index];
        assert s[1..][index..] == s[index + 1..];
        assert [s[0]] + s[1..index] == s[..index];
      }
    }
  }

  /** `Math.floor(rnd * n)` for a draw `rnd` of `Math.random()`: a valid position. */
  function RandomIndex(rnd: real, n: nat): (k: nat)
    requires 0.0 <= rnd < 1.0 && n > 0
    ensures k < n
    ensures k as real <= rnd * n as real < (k + 1) as real
  {
    assert 0.0 <= rnd * n as real < n as real by {
      assert rnd * n as real <= rnd * n as real;
    }
    (rnd * n as real).Floor
  }

  predicate NoDuplicates(s: seq<string>) {
    forall i, j :: 0 <= i < j < |s| ==> s[i] != s[j]
  }

  /** What `addOption` may store: a non-empty trimmed string. */
  predicate Storable(o: string) {
    o != [] && IsTrimmed(o)
  }

  class PickPage {
    var options: seq<string>
    var inputValue: string
    var isPicking: bool
    var result: Option<string>

    /** The options are distinct, non-empty and trimmed. */
    ghost predicate Valid()
      reads this
    {
      NoDuplicates(options) && forall i :: 0 <= i < |options| ==> Storable(options[i])
    }

    constructor ()
      ensures Valid()
      ensures options == [] && inputValue == "" && !isPicking && result == None
    {
      options := [];
      inputValue := "";
      isPicking := false;
      result := None;
    }

    /** Typing in the option field. */
    method SetInput(text: string)
      modifies this
      ensures inputValue == text
      ensures options == old(options) && isPicking == old(isPicking) && result == old(result)
    {
      inputValue := text;
    }

    /**
     * `addOption`: the trimmed input is appended, and the field cleared, when it
     * is non-empty and not already an option; otherwise nothing changes.
     */
    method AddOption()
      requires Valid()
      modifies this
      ensures Valid()
      ensures isPicking == old(isPicking) && result == old(result)
      ensures var t := Trim(old(inputValue));
        if t != [] && t !in old(options)
        then options == old(options) + [t] && inputValue == ""
        else options == old(options) && inputValue == old(inputValue)
    {
      var t := Trim(inputValue);
      if t != [] && t !in options {
        options := options + [t];
        inputValue := "";
      }
    }

    /** `removeOption(index)`: drops the option at `index` when there is one. */
    method RemoveOption(index: int)
      requires Valid()
      modifies this
      ensures Valid()
      ensures options == WithoutIndex(old(options), index)
      ensures 0 <= index < |old(options)| ==>
        |options| == |old(options)| - 1 && options == old(options)[..index] + old(options)[index + 1..]
      ensures !(0 <= index < |old(options)|) ==> options == old(options)
      ensures inputValue == old(inputValue) && isPicking == old(isPicking) && result == old(result)
    {
      WithoutIndexSpec(options, index);
      ghost var before := options;
      options := WithoutIndex(options, index);
      if 0 <= index < |before| {
        assert forall i :: 0 <= i < |options| ==>
          options[i] == before[if i < index then i else i + 1];
      }
    }

    /**
     * The part of `pickRandom` before its pause: with fewer than two options
     * nothing happens; otherwise the picker shows that it is busy, clears the
     * last result and keeps the options it will draw from.
     */
    method StartPick() returns (started: bool, captured: seq<string>)
      modifies this
      ensures started == (|old(options)| >= 2)
      ensures started ==> captured == old(options) && isPicking && result == None
      ensures !started ==> isPicking == old(isPicking) && result == old(result)
      ensures options == old(options) && inputValue == old(inputValue)
    {
      if |options| < 2 {
        return false, [];
      }
      isPicking := true;
      result := None;
      return true, options;
    }

    /**
     * The part of `pickRandom` after its pause: the result is the captured
     * option at position `floor(rnd * n)`, whatever the list now holds.
     */
    method FinishPick(captured: seq<string>, rnd: real)
      requires |captured| >= 2 && 0.0 <= rnd < 1.0
      modifies this
      ensures result == Some(captured[RandomIndex(rnd, |captured|)])
      ensures result.value in captured
      ensures !isPicking
      ensures options == old(options) && inputValue == old(inputValue)
    {
      var k := RandomIndex(rnd, |captured|);
      result := Some(captured[k]);
      isPicking := false;
    }

    /**
     * `pickRandom` with nothing else happening during its pause: with fewer than
     * two options nothing changes; otherwise the result is one of the options,
     * the options are kept and the picker is idle again.
     */
    method PickRandom(rnd: real)
      requires 0.0 <= rnd < 1.0
      modifies this
      ensures options == old(options) && inputValue == old(inputValue)
      ensures |options| < 2 ==> isPicking == old(isPicking) && result == old(result)
      ensures |options| >= 2 ==>
        !isPicking && result == Some(options[RandomIndex(rnd, |options|)]) && result.value in options
    {
      var started, captured := StartPick();
      if started {
        FinishPick(captured, rnd);
      }
    }

    /** `reset`: no options and no result; the field and the busy flag are kept. */
    method Reset()
      modifies this
      ensures Valid()
      ensures options == [] && result == None
      ensures inputValue == old(inputValue) && isPicking == old(isPicking)
    {
      options := [];
      result := None;
    }

    /** The re-run button hides the last result. */
    method ClearResult()
      modifies this
      ensures result == None
      ensures options == old(options) && inputValue == old(inputValue) && isPicking == old(isPicking)
    {
      result := None;
    }
  }
}
