/** Directory listings as sequences of names, and the parts of them that satisfy a test. */
module Listing {

  /** The names of `s`, in order, for which `p` answers `want`. */
  function Keep(s: seq<string>, p: string -> bool, want: bool): (r: seq<string>)
    ensures |r| <= |s|
    ensures forall x :: x in r ==> x in s && p(x) == want
  {
    if |s| == 0 then []
    else Keep(s[..|s| - 1], p, want) + (if p(s[|s| - 1]) == want then [s[|s| - 1]] else [])
  }

  /** Every name passes a test or fails it: the two parts add up to the whole listing. */
  lemma {:induction false} KeepSplits(s: seq<string>, p: string -> bool)
    ensures |Keep(s, p, true)| + |Keep(s, p, false)| == |s|
  {
    if |s| > 0 {
      KeepSplits(s[..|s| - 1], p);
    }
  }

  lemma KeepStep(s: seq<string>, i: nat, p: string -> bool, want: bool)
    requires i < |s|
    ensures Keep(s[..i + 1], p, want) == Keep(s[..i], p, want) + (if p(s[i]) == want then [s[i]] else [])
  {
    assert s[..i + 1][..i] == s[..i];
  }

  /** No name fails a test exactly when the part that fails it is empty. */
  lemma {:induction false} KeepAllNegated(s: seq<string>, p: string -> bool)
    ensures |Keep(s, p, false)| == 0 <==> forall i :: 0 <= i < |s| ==> p(s[i])
  {
    if |s| > 0 {
      KeepAllNegated(s[..|s| - 1], p);
      var init := s[..|s| - 1];
      assert forall i :: 0 <= i < |init| ==> init[i] == s[i];
      if !p(s[|s| - 1]) {
        assert s[|s| - 1] in Keep(s, p, false);
      }
    }
  }

  /**
   * A stronger test passes no more names than a weaker one, and as many
   * exactly when the two agree on every name the weaker one passes.
   */
  lemma {:induction false} KeepWeaker(s: seq<string>, strong: string -> bool, weak: string -> bool)
    requires forall x :: strong(x) ==> weak(x)
    ensures |Keep(s, strong, true)| <= |Keep(s, weak, true)|
    ensures |Keep(s, strong, true)| == |Keep(s, weak, true)| <==>
            forall i :: 0 <= i < |s| && weak(s[i]) ==> strong(s[i])
  {
    if |s| > 0 {
      var init := s[..|s| - 1];
      KeepWeaker(init, strong, weak);
      assert forall i :: 0 <= i < |init| ==> init[i] == s[i];
    }
  }
}
