/** Reading one cookie out of a Cookie header (section 4.2.1 of RFC 6265). */
module Cookie {
  import opened Basics
  import opened Text

  /** Header text is visible ASCII and tabs; anything else is not readable as text. */
  predicate Readable(raw: string) { forall c :: c in raw ==> c == '\t' || ' ' <= c <= '~' }

  predicate IsSpace(c: char) { c == ' ' || '\t' <= c <= '\r' }

  function TrimStart(s: string): string { if s != [] && IsSpace(s[0]) then TrimStart(s[1..]) else s }

  function TrimEnd(s: string): string { if s != [] && IsSpace(s[|s| - 1]) then TrimEnd(s[..|s| - 1]) else s }

  function Trim(s: string): string { TrimEnd(TrimStart(s)) }

  /** The text before and after the first separator. */
  function SplitOnce(s: string, c: char): Option<(string, string)> {
    if s == [] then None
    else if s[0] == c then Some(([], s[1..]))
    else match SplitOnce(s[1..], c)
      case None => None
      case Some((before, after)) => Some(([s[0]] + before, after))
  }

  function EntryValue(entry: string, name: string): Option<string> {
    match SplitOnce(Trim(entry), '=')
    case Some((n, value)) => if n == name then Some(value) else None
    case None => None
  }

  function FindValue(entries: seq<string>, name: string): Option<string> {
    if entries == [] then None
    else if EntryValue(entries[0], name).Some? then EntryValue(entries[0], name)
    else FindValue(entries[1..], name)
  }

  function ExtractCookie(header: Option<string>, name: string): Option<string> {
    if header.None? || !Readable(header.value) then None else FindValue(Split(header.value, ';'), name)
  }

  // --- Printing ----------------------------------------------------------------------------

  datatype Pair = Pair(name: string, value: string)

  /** A name has no "=", neither part has ";", and the pair neither begins nor ends with white space. */
  predicate WellFormed(p: Pair) {
    && '=' !in p.name && ';' !in p.name && ';' !in p.value
    && (p.name != [] ==> !IsSpace(p.name[0])) && (p.value != [] ==> !IsSpace(p.value[|p.value| - 1]))
  }

  function PrintPair(p: Pair): string { p.name + "=" + p.value }

  function PrintPairs(ps: seq<Pair>): seq<string> {
    if ps == [] then [] else [PrintPair(ps[0])] + PrintPairs(ps[1..])
  }

  function Print(ps: seq<Pair>): string { if ps == [] then [] else Join(PrintPairs(ps), "; ") }

  function FirstValue(ps: seq<Pair>, name: string): Option<string> {
    if ps == [] then None else if ps[0].name == name then Some(ps[0].value) else FirstValue(ps[1..], name)
  }

  lemma {:induction false} SplitOnceAtFirst(before: string, after: string, c: char)
    requires c !in before
    ensures SplitOnce(before + [c] + after, c) == Some((before, after))
  {
    var s := before + [c] + after;
    if before == [] {
      assert s[1..] == after;
    } else {
      assert s[1..] == before[1..] + [c] + after;
      SplitOnceAtFirst(before[1..], after, c);
      assert [before[0]] + before[1..] == before;
    }
  }

  lemma EntryOfPair(p: Pair, name: string)
    requires WellFormed(p)
    ensures EntryValue(PrintPair(p), name) == if p.name == name then Some(p.value) else None
    ensures EntryValue(" " + PrintPair(p), name) == EntryValue(PrintPair(p), name)
    ensures ';' !in PrintPair(p) && ';' !in " " + PrintPair(p)
  {
    var s := PrintPair(p);
    assert s[0] == (if p.name != [] then p.name[0] else '=');
    assert s[|s| - 1] == (if p.value != [] then p.value[|p.value| - 1] else '=');
    assert TrimStart(s) == s && TrimEnd(s) == s;
    assert (" " + s)[1..] == s;
    assert TrimStart(" " + s) == s;
    assert s == p.name + ['='] + p.value;
    SplitOnceAtFirst(p.name, p.value, '=');
  }

  /** The pieces between semicolons: all but the first begin with the space of the separator. */
  function Pieces(ps: seq<Pair>, first: bool): seq<string> {
    if ps == [] then [] else [(if first then "" else " ") + PrintPair(ps[0])] + Pieces(ps[1..], false)
  }

  lemma {:induction false} PiecesJoin(ps: seq<Pair>, first: bool)
    requires ps != []
    ensures |Pieces(ps, first)| == |ps| == |PrintPairs(ps)|
    ensures Join(Pieces(ps, first), ";") == (if first then "" else " ") + Join(PrintPairs(ps), "; ")
  {
    var lead := if first then "" else " ";
    var head := PrintPair(ps[0]);
    if |ps| == 1 {
      assert Pieces(ps[1..], false) == [] && PrintPairs(ps[1..]) == [];
    } else {
      PiecesJoin(ps[1..], false);
      JoinCons(lead + head, Pieces(ps[1..], false), ";");
      JoinCons(head, PrintPairs(ps[1..]), "; ");
      var rest := Join(PrintPairs(ps[1..]), "; ");
      assert (lead + head) + ";" + (" " + rest) == lead + (head + "; " + rest);
    }
  }

  lemma {:induction false} FindInPieces(ps: seq<Pair>, first: bool, name: string)
    requires forall p :: p in ps ==> WellFormed(p)
    ensures FindValue(Pieces(ps, first), name) == FirstValue(ps, name)
    ensures forall s :: s in Pieces(ps, first) ==> ';' !in s
  {
    hide PrintPair, WellFormed, EntryValue;
    if ps != [] {
      EntryOfPair(ps[0], name);
      assert "" + PrintPair(ps[0]) == PrintPair(ps[0]);
      FindInPieces(ps[1..], false, name);
      var pieces := Pieces(ps, first);
      assert pieces[1..] == Pieces(ps[1..], false);
    }
  }

  /** Characters a header may hold and still be read as text. */
  predicate Visible(s: string) { forall c :: c in s ==> c == '\t' || ' ' <= c <= '~' }

  lemma {:induction false} PrintedVisible(ps: seq<Pair>)
    requires ps != []
    ensures Readable(Print(ps)) <==> forall p :: p in ps ==> Visible(p.name) && Visible(p.value)
  {
    PairVisible(ps[0]);
    if |ps| == 1 {
      assert PrintPairs(ps) == [PrintPair(ps[0])];
    } else {
      var rest := ps[1..];
      PrintedVisible(rest);
      JoinCons(PrintPair(ps[0]), PrintPairs(rest), "; ");
      assert Print(ps) == PrintPair(ps[0]) + "; " + Print(rest);
      VisibleParts(PrintPair(ps[0]), "; ", Print(rest));
      assert forall p :: p in ps <==> p == ps[0] || p in rest;
    }
  }

  lemma VisibleParts(a: string, b: string, c: string)
    ensures Visible(a + b + c) <==> Visible(a) && Visible(b) && Visible(c)
    ensures Readable(a + b + c) <==> Readable(a) && Readable(b) && Readable(c)
  {
    assert forall x :: x in a + b + c <==> x in a || x in b || x in c;
  }

  lemma PairVisible(p: Pair)
    ensures Readable(PrintPair(p)) <==> Visible(p.name) && Visible(p.value)
  {
    VisibleParts(p.name, "=", p.value);
  }

  /**
   * Extracting from a printed list of pairs gives the value of the first pair with that name, or none; a single character
   * that is neither visible ASCII nor a space or tab, in any pair, hides them all.
   */
  lemma ExtractPrinted(ps: seq<Pair>, name: string)
    requires forall p :: p in ps ==> WellFormed(p)
    ensures ExtractCookie(Some(Print(ps)), name) ==
            if forall p :: p in ps ==> Visible(p.name) && Visible(p.value) then FirstValue(ps, name) else None
  {
    if ps == [] {
      var none: seq<string> := [[]];
      assert Split(Print(ps), ';') == none && none[1..] == [];
      assert EntryValue(none[0], name).None? && FindValue(none[1..], name).None?;
      assert FindValue(none, name).None?;
    } else {
      PrintedVisible(ps);
      PiecesJoin(ps, true);
      FindInPieces(ps, true, name);
      SplitJoin(Pieces(ps, true), ';');
      assert "" + Print(ps) == Print(ps);
    }
  }

  // --- Any header --------------------------------------------------------------------------

  predicate Blank(s: string) { forall c :: c in s ==> c == ' ' || '\t' <= c <= '\r' }

  /** The piece is `name=value` with white space around, the name without "=". */
  ghost predicate Carries(piece: string, name: string, value: string) {
    exists lead: string, trail: string :: Around(piece, lead, name + "=" + value, trail) && '=' !in name
  }

  ghost predicate Around(piece: string, lead: string, core: string, trail: string) {
    piece == lead + core + trail && Blank(lead) && Blank(trail)
    && core != [] && !Blank([core[0]]) && !Blank([core[|core| - 1]])
  }

  lemma BlankOne(c: char)
    ensures Blank([c]) <==> IsSpace(c)
  {
    assert c in [c];
  }

  lemma {:induction false} TrimStartAt(lead: string, rest: string)
    requires Blank(lead) && rest != [] && !IsSpace(rest[0])
    ensures TrimStart(lead + rest) == rest
  {
    if lead == [] {
      assert lead + rest == rest;
    } else {
      assert lead[0] in lead && forall c :: c in lead[1..] ==> c in lead;
      TrimStartAt(lead[1..], rest);
      assert (lead + rest)[1..] == lead[1..] + rest;
    }
  }

  lemma {:induction false} TrimEndAt(rest: string, trail: string)
    requires Blank(trail) && rest != [] && !IsSpace(rest[|rest| - 1])
    ensures TrimEnd(rest + trail) == rest
  {
    if trail == [] {
      assert rest + trail == rest;
    } else {
      var front, last := trail[..|trail| - 1], trail[|trail| - 1];
      assert trail == front + [last] && last in trail;
      forall c | c in front
        ensures IsSpace(c)
      {
        assert c in trail;
      }
      TrimEndAt(rest, front);
      assert (rest + trail)[..|rest + trail| - 1] == rest + front;
    }
  }

  lemma {:induction false} TrimStartParts(s: string) returns (lead: string)
    ensures s == lead + TrimStart(s) && Blank(lead) && (TrimStart(s) != [] ==> !IsSpace(TrimStart(s)[0]))
  {
    if s != [] && IsSpace(s[0]) {
      var more := TrimStartParts(s[1..]);
      lead := [s[0]] + more;
      assert s == [s[0]] + s[1..];
    } else {
      lead := [];
      assert s == lead + s;
    }
  }

  lemma {:induction false} TrimEndParts(s: string) returns (trail: string)
    ensures s == TrimEnd(s) + trail && Blank(trail) && TrimEnd(s) <= s
    ensures TrimEnd(s) != [] ==> !IsSpace(TrimEnd(s)[|TrimEnd(s)| - 1])
  {
    if s != [] && IsSpace(s[|s| - 1]) {
      var more := TrimEndParts(s[..|s| - 1]);
      trail := more + [s[|s| - 1]];
      assert s == s[..|s| - 1] + [s[|s| - 1]];
    } else {
      trail := [];
      assert s == s + trail;
    }
  }

  lemma {:induction false} SplitOnceParts(s: string, c: char)
    ensures match SplitOnce(s, c)
            case Some((before, after)) => s == before + [c] + after && c !in before
            case None => c !in s
  {
    if s != [] && s[0] != c {
      SplitOnceParts(s[1..], c);
      assert s == [s[0]] + s[1..];
    }
  }

  lemma EntryMeaning(piece: string, name: string, value: string)
    ensures EntryValue(piece, name) == Some(value) <==> Carries(piece, name, value)
  {
    if EntryValue(piece, name) == Some(value) {
      var lead := TrimStartParts(piece);
      var trail := TrimEndParts(TrimStart(piece));
      SplitOnceParts(Trim(piece), '=');
      var core := name + "=" + value;
      BlankOne(core[0]);
      BlankOne(core[|core| - 1]);
      assert Around(piece, lead, core, trail);
    }
    if Carries(piece, name, value) {
      var lead: string, trail: string :| Around(piece, lead, name + "=" + value, trail) && '=' !in name;
      var core := name + "=" + value;
      BlankOne(core[0]);
      BlankOne(core[|core| - 1]);
      assert lead + core + trail == lead + (core + trail);
      TrimStartAt(lead, core + trail);
      TrimEndAt(core, trail);
      SplitOnceAtFirst(name, value, '=');
    }
  }

  /** Piece i has the value, and no earlier piece has one for that name. */
  ghost predicate FirstAt(pieces: seq<string>, i: nat, name: string, value: string) {
    i < |pieces| && Carries(pieces[i], name, value) && forall j, v :: 0 <= j < i ==> !Carries(pieces[j], name, v)
  }

  lemma {:induction false} FindMeaning(pieces: seq<string>, name: string, value: string)
    ensures FindValue(pieces, name) == Some(value) <==> exists i: nat :: FirstAt(pieces, i, name, value)
  {
    hide Carries, EntryValue;
    if pieces != [] {
      forall v
        ensures EntryValue(pieces[0], name) == Some(v) <==> Carries(pieces[0], name, v)
      {
        EntryMeaning(pieces[0], name, v);
      }
      FindMeaning(pieces[1..], name, value);
      if EntryValue(pieces[0], name) == Some(value) { assert FirstAt(pieces, 0, name, value); }
      if EntryValue(pieces[0], name).Some? {
        assert Carries(pieces[0], name, EntryValue(pieces[0], name).value);
      } else {
        forall i: nat | FirstAt(pieces[1..], i, name, value)
          ensures FirstAt(pieces, i + 1, name, value)
        {
          LaterFirst(pieces, i, name, value);
        }
        forall i: nat | FirstAt(pieces, i, name, value)
          ensures FirstAt(pieces[1..], i - 1, name, value)
        {
          EarlierFirst(pieces, i, name, value);
        }
      }
    }
  }

  lemma LaterFirst(pieces: seq<string>, i: nat, name: string, value: string)
    requires pieces != [] && (forall v :: !Carries(pieces[0], name, v)) && FirstAt(pieces[1..], i, name, value)
    ensures FirstAt(pieces, i + 1, name, value)
  {
    hide Carries;
    forall j, v | 0 <= j < i + 1
      ensures !Carries(pieces[j], name, v)
    {
      if j > 0 { assert pieces[1..][j - 1] == pieces[j]; }
    }
  }

  lemma EarlierFirst(pieces: seq<string>, i: nat, name: string, value: string)
    requires pieces != [] && (forall v :: !Carries(pieces[0], name, v)) && FirstAt(pieces, i, name, value)
    ensures i >= 1 && FirstAt(pieces[1..], i - 1, name, value)
  {
    hide Carries;
  }

  /**
   * For every header and name: a value is found exactly when the header is readable text and, of the pieces between
   * semicolons, one is `name=value` within white space and no earlier one has that name.
   */
  lemma ExtractMeaning(header: string, name: string, value: string)
    ensures ExtractCookie(None, name) == None
    ensures ExtractCookie(Some(header), name) == Some(value) <==>
            Visible(header) && exists i: nat :: FirstAt(Split(header, ';'), i, name, value)
    ensures Join(Split(header, ';'), ";") == header && forall p :: p in Split(header, ';') ==> ';' !in p
  {
    hide FirstAt, FindValue;
    FindMeaning(Split(header, ';'), name, value);
    JoinSplit(header, ';');
  }
}
