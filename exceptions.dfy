/**
 * The SDK's exception classes, kept as result tags, and the cleaning of
 * transport (Arrow Flight) error messages before they are shown as server
 * errors (src/queryboost/exceptions/exceptions.py).
 */
module Exceptions {

  /** The subclasses of `QueryboostError`. */
  datatype ErrorKind =
    | ConfigurationError
    | DataTypeError
    | DataColumnError
    | BatchSizeError
    | PromptError
    | BatchHandlerError
    | ServerError

  /** The class of a raised exception: one of the SDK's own, a transport error, or a Python built-in. */
  datatype ExcClass =
    | Queryboost(kind: ErrorKind)
    | FlightError
    | KeyError
    | StopIteration
    | OtherException(name: string)

  /** A raised exception; `message` is what `str(e)` gives. */
  datatype Exc = Exc(cls: ExcClass, message: string)

  /** What the transport appends after the useful part of a message. */
  const DebugContextMarker: string := ". gRPC client debug context:"

  /** The redundant prefix the server puts in front of every message. */
  const FlightErrorPrefix: string := "Flight error: "

  /** `pat` occurs in `s` starting at index `i`. */
  predicate OccursAt(s: string, pat: string, i: int) {
    0 <= i && i + |pat| <= |s| && s[i..i + |pat|] == pat
  }

  /** `pat in s`: `pat` occurs somewhere in `s`. */
  predicate Contains(s: string, pat: string)
    decreases |s|
  {
    |pat| <= |s| && (s[..|pat|] == pat || Contains(s[1..], pat))
  }

  lemma OccursAtTail(s: string, pat: string, i: int)
    requires 0 <= i && |s| > 0
    ensures OccursAt(s[1..], pat, i) <==> OccursAt(s, pat, i + 1)
  {
    if i + |pat| <= |s[1..]| {
      assert s[1..][i..i + |pat|] == s[i + 1..i + 1 + |pat|];
    }
  }

  /** An occurrence at any index makes `pat in s` true. */
  lemma {:induction false} ContainsAt(s: string, pat: string, i: int)
    requires OccursAt(s, pat, i)
    ensures Contains(s, pat)
    decreases i
  {
    if i == 0 {
      assert s[..|pat|] == pat;
    } else {
      OccursAtTail(s, pat, i - 1);
      ContainsAt(s[1..], pat, i - 1);
    }
  }

  /** When `pat in s` is false, `pat` occurs at no index. */
  lemma {:induction false} LacksAt(s: string, pat: string, i: int)
    requires !Contains(s, pat)
    ensures !OccursAt(s, pat, i)
    decreases |s|
  {
    if 0 < i && |pat| <= |s| {
      LacksAt(s[1..], pat, i - 1);
      OccursAtTail(s, pat, i - 1);
    }
  }

  /** When `pat in s` is true, some index holds an occurrence. */
  lemma {:induction false} ContainsWitness(s: string, pat: string) returns (i: int)
    requires Contains(s, pat)
    ensures OccursAt(s, pat, i)
    decreases |s|
  {
    if s[..|pat|] == pat {
      i := 0;
    } else {
      var j := ContainsWitness(s[1..], pat);
      OccursAtTail(s, pat, j);
      i := j + 1;
    }
  }

  /**
   * `s.split(sep)[0]`: the text before the first occurrence of `sep`, or
   * all of `s` when `sep` does not occur.
   */
  function TextBefore(s: string, sep: string): (r: string)
    requires sep != []
    ensures |r| <= |s| && r == s[..|r|]
    ensures forall i :: 0 <= i < |r| ==> !OccursAt(s, sep, i)
    ensures |r| < |s| ==> OccursAt(s, sep, |r|)
    decreases |s|
  {
    if |s| < |sep| then s
    else if s[..|sep|] == sep then []
    else
      var rest := TextBefore(s[1..], sep);
      assert forall i :: 1 <= i <= |rest| ==> !OccursAt(s, sep, i) by {
        forall i | 1 <= i <= |rest| ensures !OccursAt(s, sep, i) {
          OccursAtTail(s, sep, i - 1);
        }
      }
      assert |rest| < |s[1..]| ==> OccursAt(s, sep, |rest| + 1) by {
        OccursAtTail(s, sep, |rest|);
      }
      assert !OccursAt(s, sep, 0);
      assert [s[0]] + rest == s[..|rest| + 1];
      [s[0]] + rest
  }

  /**
   * `s.replace(pat, "")`: every occurrence of `pat` removed, scanning left
   * to right and resuming after each removed occurrence (Python's
   * leftmost, non-overlapping replacement).
   */
  function RemoveAll(s: string, pat: string): (r: string)
    requires pat != []
    ensures |r| <= |s|
    ensures !Contains(s, pat) ==> r == s
    ensures Contains(s, pat) ==> |r| <= |s| - |pat|
    decreases |s|
  {
    if |s| < |pat| then s
    else if s[..|pat|] == pat then RemoveAll(s[|pat|..], pat)
    else [s[0]] + RemoveAll(s[1..], pat)
  }

  /** Where `pat` does not start, removal keeps the first character. */
  lemma RemoveAllKeepsHead(c: char, u: string, pat: string)
    requires pat != [] && |pat| <= 1 + |u| && !OccursAt([c] + u, pat, 0)
    ensures RemoveAll([c] + u, pat) == [c] + RemoveAll(u, pat)
  {
    var s := [c] + u;
    assert s[..|pat|] != pat;
    assert s[1..] == u;
  }

  /** A leading occurrence is dropped. */
  lemma RemoveAllDropsHead(pat: string, x: string)
    requires pat != []
    ensures RemoveAll(pat + x, pat) == RemoveAll(x, pat)
  {
    var s := pat + x;
    assert s[..|pat|] == pat;
    assert s[|pat|..] == x;
  }

  lemma SplitHead(y: string, pat: string, x: string)
    requires y != []
    ensures y + pat + x == [y[0]] + (y[1..] + pat + x)
  {
    assert [y[0]] + y[1..] == y;
  }

  lemma HeadRegroups(y: string, r: string)
    requires y != []
    ensures [y[0]] + (y[1..] + r) == y + r
  {
    assert [y[0]] + y[1..] == y;
  }

  /** No occurrence starting inside `y` means none starting inside `y[1..]` once the head is gone. */
  lemma NoEarlierInTail(y: string, pat: string, x: string)
    requires y != []
    requires forall i :: 0 <= i < |y| ==> !OccursAt(y + pat + x, pat, i)
    ensures forall i :: 0 <= i < |y| - 1 ==> !OccursAt(y[1..] + pat + x, pat, i)
  {
    var s := y + pat + x;
    assert s[1..] == y[1..] + pat + x;
    forall i | 0 <= i < |y| - 1 ensures !OccursAt(y[1..] + pat + x, pat, i) {
      OccursAtTail(s, pat, i);
    }
  }

  /** The step of `RemoveAllAfter`: putting back a head character where `pat` does not start. */
  lemma RemoveAllStep(y: string, pat: string, x: string)
    requires pat != [] && y != [] && !OccursAt(y + pat + x, pat, 0)
    requires RemoveAll(y[1..] + pat + x, pat) == y[1..] + RemoveAll(x, pat)
    ensures RemoveAll(y + pat + x, pat) == y + RemoveAll(x, pat)
  {
    SplitHead(y, pat, x);
    RemoveAllKeepsHead(y[0], y[1..] + pat + x, pat);
    HeadRegroups(y, RemoveAll(x, pat));
  }

  /**
   * When the first occurrence of `pat` in `y + pat + x` is the one after
   * `y`, removal keeps `y`, drops that occurrence and goes on in `x`.
   */
  lemma {:induction false} RemoveAllAfter(y: string, pat: string, x: string)
    requires pat != []
    requires forall i :: 0 <= i < |y| ==> !OccursAt(y + pat + x, pat, i)
    ensures RemoveAll(y + pat + x, pat) == y + RemoveAll(x, pat)
    decreases |y|
  {
    if y == [] {
      assert y + pat + x == pat + x;
      RemoveAllDropsHead(pat, x);
    } else {
      NoEarlierInTail(y, pat, x);
      RemoveAllAfter(y[1..], pat, x);
      RemoveAllStep(y, pat, x);
    }
  }

  /** A text with an occurrence at no index does not contain the pattern. */
  lemma {:induction false} LacksEverywhere(s: string, pat: string)
    requires forall i :: 0 <= i ==> !OccursAt(s, pat, i)
    ensures !Contains(s, pat)
    decreases |s|
  {
    if |pat| <= |s| {
      assert !OccursAt(s, pat, 0);
      forall i | 0 <= i ensures !OccursAt(s[1..], pat, i) {
        OccursAtTail(s, pat, i);
      }
      LacksEverywhere(s[1..], pat);
    }
  }

  /** A text that `split` leaves whole holds no occurrence. */
  lemma UncutLacksPattern(s: string, pat: string)
    requires pat != [] && |TextBefore(s, pat)| == |s|
    ensures !Contains(s, pat)
  {
    forall i | 0 <= i ensures !OccursAt(s, pat, i) {
      assert i < |s| ==> i < |TextBefore(s, pat)|;
    }
    LacksEverywhere(s, pat);
  }

  /**
   * `s.replace(pat, "") == "".join(s.split(pat))`: the text before the first
   * occurrence is kept, the occurrence is dropped, and the rest is treated
   * the same way; a text without the pattern is left whole.
   */
  lemma RemoveAllSplits(s: string, pat: string)
    requires pat != []
    ensures |TextBefore(s, pat)| == |s| ==> RemoveAll(s, pat) == s
    ensures |TextBefore(s, pat)| < |s| ==>
      RemoveAll(s, pat) == TextBefore(s, pat) + RemoveAll(s[|TextBefore(s, pat)| + |pat|..], pat)
  {
    var h := TextBefore(s, pat);
    if |h| == |s| {
      UncutLacksPattern(s, pat);
    } else {
      var rest := s[|h| + |pat|..];
      assert s == h + pat + rest;
      RemoveAllAfter(h, pat, rest);
    }
  }

  /**
   * An occurrence in the middle of a text is removed and the text around it
   * kept, when no occurrence starts before it (here: `y` holds no `F`).
   */
  lemma RemoveAllMidText(y: string, x: string)
    requires forall k :: 0 <= k < |y| ==> y[k] != FlightErrorPrefix[0]
    requires !Contains(x, FlightErrorPrefix)
    ensures RemoveAll(y + FlightErrorPrefix + x, FlightErrorPrefix) == y + x
  {
    var p := FlightErrorPrefix;
    var s := y + p + x;
    forall i | 0 <= i < |y| ensures !OccursAt(s, p, i) {
      assert s[i] == y[i];
    }
    RemoveAllAfter(y, p, x);
  }

  /** A doubled prefix is removed twice: `"Flight error: Flight error: " + x` cleans to `x`. */
  lemma CleanRepeatedPrefix(x: string)
    requires !Contains(x, DebugContextMarker) && !Contains(x, FlightErrorPrefix)
    ensures CleanFlightErrorMessage(FlightErrorPrefix + FlightErrorPrefix + x) == x
  {
    var p := FlightErrorPrefix;
    NoMarkerAfterPrefix(x);
    NoMarkerAfterPrefix(p + x);
    assert p + p + x == p + (p + x);
    TextBeforeWhole(p + (p + x), DebugContextMarker);
    RemoveAllDropsHead(p, p + x);
    RemoveAllDropsHead(p, x);
  }

  /**
   * `clean_flight_error_message`: the message cut at the debug-context
   * marker (the marker's leading period goes with it), then stripped of
   * every "Flight error: " prefix.
   */
  function CleanFlightErrorMessage(message: string): (r: string)
    ensures |r| <= |message|
    ensures !Contains(message, DebugContextMarker) && !Contains(message, FlightErrorPrefix) ==> r == message
  {
    var head := TextBefore(message, DebugContextMarker);
    assert !Contains(message, DebugContextMarker) ==> head == message by {
      if !Contains(message, DebugContextMarker) {
        TextBeforeWhole(message, DebugContextMarker);
      }
    }
    assert !Contains(message, FlightErrorPrefix) ==> !Contains(head, FlightErrorPrefix) by {
      if Contains(head, FlightErrorPrefix) {
        var i := ContainsWitness(head, FlightErrorPrefix);
        assert message[i..i + |FlightErrorPrefix|] == head[i..i + |FlightErrorPrefix|];
        ContainsAt(message, FlightErrorPrefix, i);
      }
    }
    RemoveAll(head, FlightErrorPrefix)
  }

  /** The marker's only period is its first character. */
  lemma MarkerHasOnePeriod()
    ensures DebugContextMarker[0] == '.'
    ensures forall d :: 0 < d < |DebugContextMarker| ==> DebugContextMarker[d] != '.'
  {
  }

  /** The prefix holds no period, so no marker can begin inside it. */
  lemma PrefixHasNoPeriod()
    ensures forall d :: 0 <= d < |FlightErrorPrefix| ==> FlightErrorPrefix[d] != '.'
  {
  }

  /** No marker of `x + marker + tail` begins inside `x` and runs past its end. */
  lemma NoMarkerAcross(x: string, tail: string, j: int)
    requires 0 <= j < |x| < j + |DebugContextMarker|
    ensures !OccursAt(x + DebugContextMarker + tail, DebugContextMarker, j)
  {
    var m := DebugContextMarker;
    var s := x + m + tail;
    MarkerHasOnePeriod();
    var d := |x| - j;
    assert s[|x|] == '.';
    assert m[d] != '.';
    if j + |m| <= |s| {
      assert s[j..j + |m|][d] == s[|x|];
    }
  }

  lemma SliceWithinHead(x: string, y: string, z: string, j: int, n: int)
    requires 0 <= j && 0 <= n && j + n <= |x|
    ensures (x + y + z)[j..j + n] == x[j..j + n]
  {
  }

  /** No marker of `x + marker + tail` begins inside `x` when `x` holds none. */
  lemma NoMarkerInside(x: string, tail: string, j: int)
    requires !Contains(x, DebugContextMarker) && 0 <= j < |x|
    ensures !OccursAt(x + DebugContextMarker + tail, DebugContextMarker, j)
  {
    var m := DebugContextMarker;
    if j + |m| <= |x| {
      SliceWithinHead(x, m, tail, j, |m|);
      LacksAt(x, m, j);
    } else {
      NoMarkerAcross(x, tail, j);
    }
  }

  /** A text without the separator is not cut. */
  lemma TextBeforeWhole(s: string, sep: string)
    requires sep != [] && !Contains(s, sep)
    ensures TextBefore(s, sep) == s
  {
    LacksAt(s, sep, |TextBefore(s, sep)|);
  }

  /** When `x` holds no marker, the first marker of `x + marker + tail` is the one right after `x`. */
  lemma TextBeforeMarker(x: string, tail: string)
    requires !Contains(x, DebugContextMarker)
    ensures TextBefore(x + DebugContextMarker + tail, DebugContextMarker) == x
  {
    var m := DebugContextMarker;
    var s := x + m + tail;
    assert s[|x|..|x| + |m|] == m;
    assert OccursAt(s, m, |x|);
    forall j | 0 <= j < |x| ensures !OccursAt(s, m, j) {
      NoMarkerInside(x, tail, j);
    }
    assert s[..|x|] == x;
  }

  /** No marker begins at index `i` of `"Flight error: " + x`. */
  lemma NoMarkerAt(x: string, i: int)
    requires !Contains(x, DebugContextMarker)
    ensures !OccursAt(FlightErrorPrefix + x, DebugContextMarker, i)
  {
    var p := FlightErrorPrefix;
    var m := DebugContextMarker;
    var s := p + x;
    if 0 <= i < |p| && i + |m| <= |s| {
      MarkerHasOnePeriod();
      PrefixHasNoPeriod();
      assert s[i..i + |m|][0] == p[i];
    } else if |p| <= i && i + |m| <= |s| {
      assert x[i - |p|..i - |p| + |m|] == s[i..i + |m|];
      LacksAt(x, m, i - |p|);
    }
  }

  /** A marker in `"Flight error: " + x` can only lie within `x`. */
  lemma NoMarkerAfterPrefix(x: string)
    requires !Contains(x, DebugContextMarker)
    ensures !Contains(FlightErrorPrefix + x, DebugContextMarker)
  {
    forall i ensures !OccursAt(FlightErrorPrefix + x, DebugContextMarker, i) {
      NoMarkerAt(x, i);
    }
    LacksEverywhere(FlightErrorPrefix + x, DebugContextMarker);
  }

  /** The server's usual shape: the prefix, the text, the debug context. Only the text is kept. */
  lemma CleanPrefixedWithContext(x: string, tail: string)
    requires !Contains(x, DebugContextMarker) && !Contains(x, FlightErrorPrefix)
    ensures CleanFlightErrorMessage(FlightErrorPrefix + x + DebugContextMarker + tail) == x
  {
    NoMarkerAfterPrefix(x);
    assert FlightErrorPrefix + x + DebugContextMarker + tail == (FlightErrorPrefix + x) + DebugContextMarker + tail;
    TextBeforeMarker(FlightErrorPrefix + x, tail);
    RemoveAllDropsHead(FlightErrorPrefix, x);
  }

  /** A message that is only the prefix and the text cleans to the text. */
  lemma CleanPrefixed(x: string)
    requires !Contains(x, DebugContextMarker) && !Contains(x, FlightErrorPrefix)
    ensures CleanFlightErrorMessage(FlightErrorPrefix + x) == x
  {
    NoMarkerAfterPrefix(x);
    TextBeforeWhole(FlightErrorPrefix + x, DebugContextMarker);
    RemoveAllDropsHead(FlightErrorPrefix, x);
  }

  /** A text shorter than a pattern cannot contain it. */
  lemma ShortTextLacksPattern(x: string, pat: string)
    requires |x| < |pat|
    ensures !Contains(x, pat)
  {
  }

  /** The documented example: the server's "Invalid input" message cleans to just that text. */
  lemma CleanGrpcExample(tail: string)
    ensures CleanFlightErrorMessage(FlightErrorPrefix + "Invalid input" + DebugContextMarker + tail) == "Invalid input"
  {
    ShortTextLacksPattern("Invalid input", DebugContextMarker);
    ShortTextLacksPattern("Invalid input", FlightErrorPrefix);
    CleanPrefixedWithContext("Invalid input", tail);
  }

  /** Replacement is leftmost and non-overlapping: removing "ab" from "aabb" leaves "ab". */
  lemma RemoveAllIsSinglePass()
    ensures RemoveAll("aabb", "ab") == "ab"
  {
    assert "aabb"[1..] == "abb";
    assert "abb"[2..] == "b";
  }
}
