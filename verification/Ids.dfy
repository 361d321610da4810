/** Identifiers: the `<pipeline>_<session>` keys and how they are taken apart again. */
module Ids {

  /** The key under which a session of a pipeline is stored. */
  function Key(pipeline: string, session: string): string {
    pipeline + "_" + session
  }

  predicate NoUnderscore(s: string) {
    '_' !in s
  }

  /** What one more character does to the parts read so far. */
  function Extend(parts: seq<string>, c: char): (r: seq<string>)
    requires |parts| >= 1
    ensures |r| >= 1
  {
    if c == '_' then parts + [""] else parts[..|parts| - 1] + [parts[|parts| - 1] + [c]]
  }

  /** `s.split("_")`: never empty, cut at every underscore. */
  function Split(s: string): (parts: seq<string>)
    ensures |parts| >= 1
  {
    if s == "" then [""] else Extend(Split(s[..|s| - 1]), s[|s| - 1])
  }

  /** `s.split("_")[-1]` */
  function LastSegment(s: string): string {
    var parts := Split(s);
    parts[|parts| - 1]
  }

  /** `s.split("_")[0]` */
  function FirstSegment(s: string): string {
    Split(s)[0]
  }

  lemma SplitSnoc(s: string, c: char)
    ensures Split(s + [c]) == Extend(Split(s), c)
  {
    assert (s + [c])[..|s + [c]| - 1] == s;
  }

  lemma ExtendRight(a: seq<string>, b: seq<string>, c: char)
    requires |b| >= 1
    ensures Extend(a + b, c) == a + Extend(b, c)
  {
    assert (a + b) + [""] == a + (b + [""]);
    assert (a + b)[..|a + b| - 1] == a + b[..|b| - 1];
  }

  lemma {:induction false} SplitOfKey(p: string, s: string)
    ensures Split(Key(p, s)) == Split(p) + Split(s)
  {
    if s == "" {
      SplitSnoc(p, '_');
      assert Key(p, "") == p + ['_'];
    } else {
      var init, c := s[..|s| - 1], s[|s| - 1];
      SplitOfKey(p, init);
      assert Key(p, s) == Key(p, init) + [c];
      SplitSnoc(Key(p, init), c);
      ExtendRight(Split(p), Split(init), c);
      assert Split(s) == Extend(Split(init), c);
    }
  }

  lemma {:induction false} SplitIsWhole(s: string)
    ensures Split(s) == [s] <==> NoUnderscore(s)
    ensures |Split(s)| == 1 <==> NoUnderscore(s)
  {
    if s != "" {
      SplitIsWhole(s[..|s| - 1]);
      assert s == s[..|s| - 1] + [s[|s| - 1]];
    }
  }

  /** Stripping a key gives the session back exactly when the session has no underscore. */
  lemma StripGivesSession(p: string, s: string)
    ensures LastSegment(Key(p, s)) == s <==> NoUnderscore(s)
  {
    SplitOfKey(p, s);
    LastSegmentClean(s);
    SplitIsWhole(s);
  }

  lemma {:induction false} LastSegmentClean(s: string)
    ensures NoUnderscore(LastSegment(s))
  {
    if s != "" {
      LastSegmentClean(s[..|s| - 1]);
    }
  }

  /** A key determines its pipeline and its session when pipeline ids have no underscore. */
  lemma KeyInjective(p: string, s: string, q: string, t: string)
    requires NoUnderscore(p) && NoUnderscore(q)
    requires Key(p, s) == Key(q, t)
    ensures p == q && s == t
  {
    SplitOfKey(p, s);
    SplitOfKey(q, t);
    SplitIsWhole(p);
    SplitIsWhole(q);
    assert (Split(p) + Split(s))[0] == p && (Split(q) + Split(t))[0] == q;
    assert s == Key(p, s)[|p| + 1..] && t == Key(q, t)[|q| + 1..];
  }

  lemma FirstSegmentOfKey(p: string, s: string)
    requires NoUnderscore(p)
    ensures FirstSegment(Key(p, s)) == p
  {
    SplitOfKey(p, s);
    SplitIsWhole(p);
  }
}
