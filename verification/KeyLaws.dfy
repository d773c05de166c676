/**
  What the URL key does to a URL, said of its text and of parameter names: which names are ignored, and which count.
*/
module KeyLaws {
  import opened Text
  import opened Lex
  import opened Seqs
  import opened QueryKey

  const CLICK_IDS := {"fbclid", "gclid", "msclkid", "mc_cid", "mc_eid"}

  predicate AsciiSpaces(s: string) {
    forall i :: 0 <= i < |s| ==> s[i] == ' ' || '\t' <= s[i] <= '\r'
  }

  /** Neither a space nor a byte of a longer character. */
  predicate Solid(c: char) {
    c != ' ' && !('\t' <= c <= '\r') && c < '\U{80}'
  }

  // ---- Trimming a parameter's name ----

  lemma SpaceBytesAreNotSolid(s: string)
    ensures forall i :: 0 <= i < SpaceBytes(s) ==> !Solid(s[i])
  {
    if |s| >= 2 && SpaceBytes(s) == 2 {
      assert s[..2][0] == s[0] && s[..2][1] == s[1];
    } else if |s| >= 3 && SpaceBytes(s) == 3 {
      assert s[..3][0] == s[0] && s[..3][1] == s[1] && s[..3][2] == s[2];
      assert s[..3][..2] == [s[0], s[1]];
    }
  }

  lemma EndSpaceIsNotSolid(s: string)
    ensures forall i :: |s| - SpaceBytesAtEnd(s) <= i < |s| ==> !Solid(s[i])
  {
    var k := SpaceBytesAtEnd(s);
    SpaceBytesAreNotSolid(s[|s| - k..]);
    forall i | |s| - k <= i < |s| ensures !Solid(s[i]) {
      assert s[i] == s[|s| - k..][i - (|s| - k)];
    }
  }

  lemma {:induction false} LeadingSpacesGo(before: string, s: string)
    requires AsciiSpaces(before) && s != "" && Solid(s[0])
    ensures TrimBytesLeft(before + s) == s
  {
    if before == "" {
      SpaceBytesAreNotSolid(s);
      assert before + s == s;
    } else {
      LeadingSpacesGo(before[1..], s);
      assert (before + s)[1..] == before[1..] + s;
    }
  }

  lemma {:induction false} TrailingSpacesGo(s: string, after: string)
    requires AsciiSpaces(after) && s != "" && Solid(s[|s| - 1])
    ensures TrimBytesRight(s + after) == s
    decreases |after|
  {
    if after == "" {
      EndSpaceIsNotSolid(s);
      assert s + after == s;
    } else {
      var init := after[..|after| - 1];
      assert s + after == (s + init) + [after[|after| - 1]];
      LastSpaceGoes(s + init, after[|after| - 1]);
      TrailingSpacesGo(s, init);
    }
  }

  lemma LastSpaceGoes(s: string, c: char)
    requires c == ' ' || '\t' <= c <= '\r'
    ensures TrimBytesRight(s + [c]) == TrimBytesRight(s)
  {
    var joined := s + [c];
    assert joined[|joined| - 1..] == [c] && joined[..|joined| - 1] == s;
  }

  /** Trimming the right end never reaches into a solid beginning. */
  lemma {:induction false} SolidHeadStays(s: string, n: nat)
    requires n <= |s| && forall i :: 0 <= i < n ==> Solid(s[i])
    ensures n <= |TrimBytesRight(s)| && TrimBytesRight(s)[..n] == s[..n]
    decreases |s|
  {
    var m := EndIsCut(s, n);
    if m < |s| {
      SolidHeadStays(s[..m], n);
      assert s[..m][..n] == s[..n];
    }
  }

  lemma EndIsCut(s: string, n: nat) returns (m: nat)
    requires n <= |s| && forall i :: 0 <= i < n ==> Solid(s[i])
    ensures n <= m <= |s|
    ensures TrimBytesRight(s) == if m == |s| then s else TrimBytesRight(s[..m])
  {
    EndSpaceIsNotSolid(s);
    m := |s| - SpaceBytesAtEnd(s);
    assert m < |s| ==> !Solid(s[m]);
  }

  lemma FoldOfPrefix(s: string, n: nat)
    requires n <= |s|
    ensures Lower(s)[..n] == Lower(s[..n])
  {
  }

  lemma FoldedIsSolid(c: char, d: char)
    requires LowerChar(c) == d && ('a' <= d <= 'z' || d == '_')
    ensures Solid(c)
  {
  }

  lemma UtmStays(core: string, after: string)
    requires "utm_" <= Lower(core)
    ensures core != "" && Solid(core[0]) && "utm_" <= Lower(TrimBytesRight(core + after))
  {
    forall i | 0 <= i < 4 ensures Solid((core + after)[i]) && (core + after)[i] == core[i] {
      assert Lower(core)[i] == "utm_"[i];
      FoldedIsSolid(core[i], "utm_"[i]);
    }
    SolidHeadStays(core + after, 4);
    var kept := TrimBytesRight(core + after);
    forall i | 0 <= i < 4 ensures Lower(kept)[i] == "utm_"[i] {
      assert kept[..4][i] == (core + after)[..4][i];
      assert Lower(core)[i] == "utm_"[i];
    }
  }

  lemma ClickIdStays(core: string, after: string)
    requires Lower(core) in CLICK_IDS && AsciiSpaces(after)
    ensures core != "" && Solid(core[0]) && TrimBytesRight(core + after) == core
  {
    FoldedIsSolid(core[0], Lower(core)[0]);
    FoldedIsSolid(core[|core| - 1], Lower(core)[|core| - 1]);
    TrailingSpacesGo(core, after);
  }

  lemma TrackedUtm(before: string, core: string, after: string)
    requires AsciiSpaces(before) && "utm_" <= Lower(core)
    ensures IsTracking(before + (core + after))
  {
    UtmStays(core, after);
    LeadingSpacesGo(before, core + after);
  }

  lemma TrackedClickId(before: string, core: string, after: string)
    requires AsciiSpaces(before) && AsciiSpaces(after) && Lower(core) in CLICK_IDS
    ensures IsTracking(before + (core + after))
  {
    ClickIdStays(core, after);
    LeadingSpacesGo(before, core + after);
    TrackedWhenTrimmed(before + (core + after), core);
  }

  lemma TrackedWhenTrimmed(name: string, core: string)
    requires TrimBytesRight(TrimBytesLeft(name)) == core && Lower(core) in CLICK_IDS
    ensures IsTracking(name)
  {
  }

  /**
    Tracking parameters are ignored: one whose name starts with `utm_` or is a click id, in any letter case and with any
    space around it, leaves the key as it was wherever it is added.
  */
  lemma {:induction false} TrackingIsIgnored(u: Url, before: string, core: string, after: string, value: string)
    requires IsBytes(u.query) && IsBytes(core) && IsBytes(value) && AsciiSpaces(before) && AsciiSpaces(after)
    requires "utm_" <= Lower(core) || Lower(core) in {"fbclid", "gclid", "msclkid", "mc_cid", "mc_eid"}
    ensures var piece := Escape(before + (core + after)) + ['='] + Escape(value);
      && KeyString(u.(query := u.query + ['&'] + piece)) == KeyString(u)
      && KeyString(u.(query := piece + ['&'] + u.query)) == KeyString(u)
  {
    if "utm_" <= Lower(core) {
      TrackedUtm(before, core, after);
    } else {
      TrackedClickId(before, core, after);
    }
    TrackingKeepsKey(u, (before + (core + after), value));
  }

  lemma OneOther(param: Param)
    requires !IsTracking(param.0)
    ensures Kept([param]) == [param]
  {
    assert [param][..0] == [];
  }

  lemma {:induction false} OtherCounts(u: Url, param: Param)
    requires WellFormed(u) && IsBytes(param.0) && IsBytes(param.1) && !IsTracking(param.0)
    ensures KeyString(u.(query := Join(u.query, Piece(param)), force := false)) != KeyString(u)
    ensures KeyString(u.(query := Join(Piece(param), u.query), force := false)) != KeyString(u)
  {
    var last := u.(query := Join(u.query, Piece(param)), force := false);
    var first := u.(query := Join(Piece(param), u.query), force := false);
    PieceIsBytes(param);
    PieceRoundTrip(param);
    ParamsJoin(u.query, Piece(param));
    ParamsJoin(Piece(param), u.query);
    KeptJoin(Params(u.query), [param]);
    KeptJoin([param], Params(u.query));
    OneOther(param);
    JoinIsBytes(u.query, Piece(param));
    JoinIsBytes(Piece(param), u.query);
    KeysAlikeIff(last, u);
    KeysAlikeIff(first, u);
    assert multiset([param])[param] == 1;
  }

  /** Every other parameter counts: one whose trimmed name, case folded, is no tracking name changes the key. */
  lemma {:induction false} OthersChangeTheKey(u: Url, name: string, value: string)
    requires WellFormed(u) && IsBytes(name) && IsBytes(value)
    requires var k := Lower(TrimBytesRight(TrimBytesLeft(name)));
      !("utm_" <= k) && k !in {"fbclid", "gclid", "msclkid", "mc_cid", "mc_eid"}
    ensures var piece := Escape(name) + ['='] + Escape(value);
      && KeyString(u.(query := u.query + ['&'] + piece, force := false)) != KeyString(u)
      && KeyString(u.(query := piece + ['&'] + u.query, force := false)) != KeyString(u)
  {
    OtherCounts(u, (name, value));
  }

  /** Trimming takes nothing but white space: solid ends stay where they are. */
  lemma SolidNameIsTrimmed(name: string)
    requires name != "" && Solid(name[0]) && Solid(name[|name| - 1])
    ensures TrimBytesRight(TrimBytesLeft(name)) == name
  {
    LeadingSpacesGo("", name);
    TrailingSpacesGo(name, "");
    assert "" + name == name && name + "" == name;
  }

  // ---- The text of a parameter ----

  lemma {:induction false} EscapeConcat(a: string, b: string)
    ensures Escape(a + b) == Escape(a) + Escape(b)
  {
    if a == "" {
      assert a + b == b;
    } else {
      EscapeConcat(a[1..], b);
      assert (a + b)[1..] == a[1..] + b;
      Associative(EscapeChar(a[0]), Escape(a[1..]), Escape(b));
    }
  }

  const HEX := "0123456789ABCDEF"

  /** A byte prints as itself if it is unreserved, a space as a plus sign, any other in two upper-case hex digits. */
  lemma EscapedByte(c: char)
    requires c as int < 256
    ensures Escape([c]) ==
      if 'a' <= c <= 'z' || 'A' <= c <= 'Z' || '0' <= c <= '9' || c == '-' || c == '_' || c == '.' || c == '~' then [c]
      else if c == ' ' then "+"
      else ['%', HEX[c as int / 16], HEX[c as int % 16]]
  {
    assert Escape([c]) == EscapeChar(c) + Escape([c][1..]);
    HexDigits(c as int / 16);
    HexDigits(c as int % 16);
    assert c as int / 16 % 16 == c as int / 16;
  }

  lemma HexDigits(n: nat)
    requires n < 16
    ensures HexDigit(n) == HEX[n]
  {
  }

  /** A name alone has the empty value, and a piece with a semicolon is no parameter. */
  lemma {:induction false} OddPieces(name: string, piece: string)
    requires IsBytes(name) && name != ""
    requires Without(piece, '&') && ';' in piece
    ensures Params(Escape(name)) == [(name, "")]
    ensures Params(piece) == []
  {
    BareName(name);
    NoAmpersand(piece);
    ParamsUncut(piece);
  }

  lemma BareName(name: string)
    requires IsBytes(name) && name != ""
    ensures Params(Escape(name)) == [(name, "")]
  {
    var piece := Escape(name);
    EscapeIsPlain(name);
    NoAmpersand(piece);
    ParamsUncut(piece);
    UnescapeEscape(name);
    assert Index(piece, '=') == |piece| && piece[..|piece|] == piece;
    assert piece != "" by { assert Escape(name) == EscapeChar(name[0]) + Escape(name[1..]); }
  }

  lemma {:induction false} NoAmpersand(s: string)
    requires Without(s, '&')
    ensures Index(s, '&') == |s|
  {
  }

  // ---- The text of a key ----

  /** Parameters in the order of their names, and of their values under one name. */
  ghost predicate Ascending(ps: seq<Param>) {
    forall i, j :: 0 <= i < j < |ps| ==> Le(ps[i].0, ps[j].0) && (ps[i].0 == ps[j].0 ==> Le(ps[i].1, ps[j].1))
  }

  lemma {:induction false} PairsAscend(keys: seq<string>, values: Values)
    requires Sorted(keys) && Distinct(keys) && forall i :: 0 <= i < |keys| ==> keys[i] in values
    ensures Ascending(PairsFor(keys, values))
    ensures forall i :: 0 <= i < |PairsFor(keys, values)| ==> PairsFor(keys, values)[i].0 in keys
  {
    if keys != [] {
      var init, last := keys[..|keys| - 1], keys[|keys| - 1];
      PairsAscend(init, values);
      SortCorrect(values[last]);
      var before, block := PairsFor(init, values), Block(last, Sort(values[last]));
      var ps := PairsFor(keys, values);
      assert ps == before + block;
      forall i, j | 0 <= i < j < |ps|
        ensures Le(ps[i].0, ps[j].0) && (ps[i].0 == ps[j].0 ==> Le(ps[i].1, ps[j].1))
      {
        if j >= |before| && i < |before| {
          assert before[i].0 in init;
          var h :| 0 <= h < |init| && init[h] == before[i].0;
          assert keys[h] == init[h];
        } else if i >= |before| {
          LeReflexive(last);
        }
      }
    }
  }

  lemma SortedPairsAscend(values: Values)
    ensures Ascending(SortedPairs(values))
  {
    SortedSetCorrect(values.Keys);
    PairsAscend(SortedSet(values.Keys), values);
  }

  lemma CanonicalIsPrinted(query: string) returns (ps: seq<Param>)
    requires IsBytes(query)
    ensures Ascending(ps) && CanonicalQuery(query) == Print(ps)
    ensures multiset(ps) == multiset(Kept(Params(query)))
  {
    var values := Strip(ParseQuery(query));
    ps := SortedPairs(values);
    SortedPairsAscend(values);
    PrintedPairs(query);
    CanonicalParams(query);
  }

  lemma PrintedPairs(query: string)
    requires IsBytes(query)
    ensures Params(CanonicalQuery(query)) == SortedPairs(Strip(ParseQuery(query)))
  {
    QueryIsBytes(query);
    SortedPairsAreBytes(Strip(ParseQuery(query)));
    PrintRoundTrip(SortedPairs(Strip(ParseQuery(query))));
  }

  lemma PrintedIsNotEmpty(ps: seq<Param>)
    ensures Print(ps) == "" <==> ps == []
  {
  }

  /**
    The key as text: scheme and host in lower case, user and path as they are, and the counting parameters, if any,
    printed in ascending order after a question mark.
  */
  lemma {:induction false} KeyText(u: Url)
    requires WellFormed(u) && u.scheme != ""
    ensures exists ps: seq<Param> ::
      && Ascending(ps) && multiset(ps) == multiset(Kept(Params(u.query)))
      && KeyString(u) == KeyParts(Lower(u.scheme), u.user, Lower(u.host), u.path, ps)
  {
    KeyIsPrintedUrl(u);
    var ps := CanonicalIsPrinted(u.query);
    PrintedIsNotEmpty(ps);
    KeyParted(u, ps);
  }

  function KeyParts(scheme: string, user: string, host: string, path: string, ps: seq<Param>): string {
    scheme + "://" + user + host + path + if ps == [] then "" else "?" + Print(ps)
  }

  lemma KeyParted(u: Url, ps: seq<Param>)
    requires WellFormed(u) && u.scheme != "" && CanonicalQuery(u.query) == Print(ps) && (Print(ps) == "" <==> ps == [])
    ensures PrintUrl(KeyUrl(u)) == KeyParts(Lower(u.scheme), u.user, Lower(u.host), u.path, ps)
  {
    ConcatScheme(Lower(u.scheme), u.user, Lower(u.host), u.path);
  }

  lemma ConcatScheme(s: string, user: string, host: string, path: string)
    ensures s + ":" + ("//" + (user + host + path)) == s + "://" + user + host + path
  {
  }
}
