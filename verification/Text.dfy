/** Splitting and joining text on a separator character. */
module Text {
  /** Rust's `str::split(c)`: always at least one piece. */
  function Split(s: string, c: char): (parts: seq<string>)
    ensures |parts| >= 1
    ensures forall p :: p in parts ==> c !in p
    decreases |s|
  {
    if s == [] then [[]]
    else if s[0] == c then [[]] + Split(s[1..], c)
    else
      var rest := Split(s[1..], c);
      [[s[0]] + rest[0]] + rest[1..]
  }

  /** Pieces joined by one separator text. */
  function Join(parts: seq<string>, sep: string): string
    requires |parts| >= 1
  {
    if |parts| == 1 then parts[0] else parts[0] + sep + Join(parts[1..], sep)
  }

  lemma {:induction false} SplitPrefix(p: string, s: string, c: char)
    requires c !in p
    ensures Split(p + s, c) == [p + Split(s, c)[0]] + Split(s, c)[1..]
  {
    if p == [] {
      assert p + s == s;
      var all := Split(s, c);
      assert p + all[0] == all[0];
      assert all == [all[0]] + all[1..];
    } else {
      assert (p + s)[1..] == p[1..] + s;
      SplitPrefix(p[1..], s, c);
      var tail := Split(s, c);
      assert [p[0]] + (p[1..] + tail[0]) == p + tail[0];
      assert ([p[1..] + tail[0]] + tail[1..])[1..] == tail[1..];
    }
  }

  /** Splitting undoes joining when no piece holds the separator. */
  lemma {:induction false} SplitJoin(parts: seq<string>, c: char)
    requires |parts| >= 1
    requires forall p :: p in parts ==> c !in p
    ensures Split(Join(parts, [c]), c) == parts
  {
    if |parts| == 1 {
      SplitPrefix(parts[0], [], c);
      assert parts[0] + [] == parts[0];
    } else {
      var rest := Join(parts[1..], [c]);
      SplitJoin(parts[1..], c);
      assert Join(parts, [c]) == parts[0] + ([c] + rest);
      SplitPrefix(parts[0], [c] + rest, c);
      assert ([c] + rest)[1..] == rest;
      assert Split([c] + rest, c) == [[]] + parts[1..];
      assert parts[0] + [] == parts[0];
      assert ([[]] + parts[1..])[1..] == parts[1..];
    }
  }

  lemma JoinCons(p: string, rest: seq<string>, sep: string)
    requires |rest| >= 1
    ensures Join([p] + rest, sep) == p + sep + Join(rest, sep)
  {
    assert ([p] + rest)[1..] == rest;
  }

  lemma JoinGrowsHead(a: char, rest: seq<string>, sep: string)
    requires |rest| >= 1
    ensures Join([[a] + rest[0]] + rest[1..], sep) == [a] + Join(rest, sep)
  {
    var all := [[a] + rest[0]] + rest[1..];
    assert all[1..] == rest[1..];
    if |rest| > 1 {
      var tail := Join(rest[1..], sep);
      assert ([a] + rest[0]) + sep + tail == [a] + (rest[0] + sep + tail);
    }
  }

  /** Joining undoes splitting, for every text. */
  lemma {:induction false} JoinSplit(s: string, c: char)
    ensures Join(Split(s, c), [c]) == s
  {
    if s != [] {
      JoinSplit(s[1..], c);
      var rest := Split(s[1..], c);
      if s[0] == c {
        JoinCons([], rest, [c]);
        assert [] + [c] + s[1..] == s;
      } else {
        JoinGrowsHead(s[0], rest, [c]);
        assert [s[0]] + s[1..] == s;
      }
    }
  }
}
