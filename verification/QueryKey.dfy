/**
  Canonical URL keys: the query is parsed, its tracking parameters dropped and the rest printed with keys and values
  sorted. Strings are byte strings here, one character below 256 for each byte.
*/
module QueryKey {
  import opened Options
  import opened Text
  import opened Lex
  import opened Seqs

  predicate IsBytes(s: string) {
    forall i :: 0 <= i < |s| ==> s[i] as int < 256
  }

  // ---- Percent-encoding ----

  /** Section 2.3 of RFC 3986. */
  predicate Unreserved(c: char) {
    'a' <= c <= 'z' || 'A' <= c <= 'Z' || '0' <= c <= '9' || c in "-_.~"
  }

  function HexDigit(n: nat): char
    requires n < 16
  {
    if n < 10 then ('0' as int + n) as char else ('A' as int + n - 10) as char
  }

  function Unhex(c: char): Option<nat> {
    if '0' <= c <= '9' then Some(c as int - '0' as int)
    else if 'a' <= c <= 'f' then Some(c as int - 'a' as int + 10)
    else if 'A' <= c <= 'F' then Some(c as int - 'A' as int + 10)
    else None
  }

  function EscapeChar(c: char): string {
    if Unreserved(c) then [c]
    else if c == ' ' then "+"
    else ['%', HexDigit(c as int / 16 % 16), HexDigit(c as int % 16)]
  }

  /** `url.QueryEscape`. */
  function Escape(s: string): string {
    if s == "" then "" else EscapeChar(s[0]) + Escape(s[1..])
  }

  /** `url.QueryUnescape`; None is its error. */
  function Unescape(s: string): Option<string> {
    if s == "" then Some("")
    else if s[0] == '%' then
      if |s| < 3 || Unhex(s[1]).None? || Unhex(s[2]).None? then None
      else
        var rest := Unescape(s[3..]);
        if rest.None? then None else Some([(Unhex(s[1]).value * 16 + Unhex(s[2]).value) as char] + rest.value)
    else
      var rest := Unescape(s[1..]);
      if rest.None? then None else Some([if s[0] == '+' then ' ' else s[0]] + rest.value)
  }

  lemma {:induction false} UnescapeOne(c: char, rest: string)
    requires c as int < 256 && Unescape(rest).Some?
    ensures Unescape(EscapeChar(c) + rest) == Some([c] + Unescape(rest).value)
  {
    var s := EscapeChar(c) + rest;
    if Unreserved(c) || c == ' ' {
      assert s[1..] == rest;
    } else {
      assert s[3..] == rest;
      assert c as int / 16 % 16 == c as int / 16;
    }
  }

  lemma {:induction false} UnescapeEscape(s: string)
    requires IsBytes(s)
    ensures Unescape(Escape(s)) == Some(s)
  {
    if s != "" {
      UnescapeEscape(s[1..]);
      UnescapeOne(s[0], Escape(s[1..]));
      assert s == [s[0]] + s[1..];
    }
  }

  /** None of the characters that structure a query. */
  predicate Plain(s: string) {
    forall i :: 0 <= i < |s| ==> s[i] != '&' && s[i] != ';' && s[i] != '='
  }

  lemma {:induction false} EscapeIsPlain(s: string)
    ensures Plain(Escape(s))
  {
    if s != "" {
      EscapeIsPlain(s[1..]);
    }
  }

  lemma {:induction false} UnescapeIsBytes(s: string)
    requires IsBytes(s) && Unescape(s).Some?
    ensures IsBytes(Unescape(s).value)
  {
    if s == "" {
    } else if s[0] == '%' {
      UnescapeIsBytes(s[3..]);
    } else {
      UnescapeIsBytes(s[1..]);
    }
  }

  // ---- Parsing ----

  type Param = (string, string)

  type Values = map<string, seq<string>>

  /** Where a separator first stands, or the length. */
  function Index(s: string, sep: char): (n: nat)
    ensures n <= |s| && (forall i :: 0 <= i < n ==> s[i] != sep) && (n < |s| ==> s[n] == sep)
  {
    if s == "" || s[0] == sep then 0 else 1 + Index(s[1..], sep)
  }

  /** One piece between ampersands; empty ones, ones with a semicolon and badly escaped ones are dropped. */
  function ParamOf(piece: string): seq<Param> {
    if piece == "" || ';' in piece then []
    else
      var n := Index(piece, '=');
      var key, value := Unescape(piece[..n]), Unescape(if n < |piece| then piece[n + 1..] else "");
      if key.None? || value.None? then [] else [(key.value, value.value)]
  }

  function Params(query: string): seq<Param>
    decreases |query|
  {
    if query == "" then []
    else
      var n := Index(query, '&');
      ParamOf(query[..n]) + if n < |query| then Params(query[n + 1..]) else []
  }

  function Collect(params: seq<Param>): Values {
    if params == [] then map[]
    else
      var m, (key, value) := Collect(params[..|params| - 1]), params[|params| - 1];
      m[key := (if key in m then m[key] else []) + [value]]
  }

  /** `url.ParseQuery` without its error, as `URL.Query` gives it. */
  function ParseQuery(query: string): Values {
    Collect(Params(query))
  }

  /** The values of a key, order aside. */
  function Bag(values: Values, key: string): multiset<string> {
    if key in values then multiset(values[key]) else multiset{}
  }

  ghost predicate SameParams(a: Values, b: Values) {
    forall k :: Bag(a, k) == Bag(b, k)
  }

  lemma CollectNext(params: seq<Param>, last: Param, k: string)
    ensures Bag(Collect(params + [last]), k)
         == Bag(Collect(params), k) + if last.0 == k then multiset{last.1} else multiset{}
  {
    assert (params + [last])[..|params|] == params;
  }

  lemma BagNext(params: seq<Param>, last: Param, p: Param)
    ensures multiset(params + [last])[p] == multiset(params)[p] + if last == p then 1 else 0
  {
  }

  lemma {:induction false} CollectCounts(params: seq<Param>, k: string, v: string)
    ensures Bag(Collect(params), k)[v] == multiset(params)[(k, v)]
  {
    if params != [] {
      var init, last := params[..|params| - 1], params[|params| - 1];
      CollectCounts(init, k, v);
      CollectNext(init, last, k);
      InitLast(params);
      BagNext(init, last, (k, v));
    }
  }

  // ---- Printing ----

  function Block(key: string, vals: seq<string>): (r: seq<Param>)
    ensures |r| == |vals|
  {
    seq(|vals|, i requires 0 <= i < |vals| => (key, vals[i]))
  }

  function PairsFor(keys: seq<string>, values: Values): seq<Param>
    requires forall i :: 0 <= i < |keys| ==> keys[i] in values
  {
    if keys == [] then []
    else PairsFor(keys[..|keys| - 1], values) + Block(keys[|keys| - 1], Sort(values[keys[|keys| - 1]]))
  }

  function Piece(param: Param): string {
    Escape(param.0) + ['='] + Escape(param.1)
  }

  function Join(a: string, b: string): string {
    a + ['&'] + b
  }

  function Print(params: seq<Param>): string {
    if params == [] then ""
    else
      var init, piece := Print(params[..|params| - 1]), Piece(params[|params| - 1]);
      if init == "" then piece else Join(init, piece)
  }

  ghost function SortedPairs(values: Values): seq<Param> {
    SortedSetCorrect(values.Keys);
    PairsFor(SortedSet(values.Keys), values)
  }

  ghost function Printed(values: Values): string {
    Print(SortedPairs(values))
  }

  lemma PrintNext(params: seq<Param>, last: Param)
    ensures Print(params + [last]) == if Print(params) == "" then Piece(last) else Join(Print(params), Piece(last))
  {
    assert (params + [last])[..|params|] == params;
  }

  method KeysOf(values: Values) returns (keys: seq<string>)
    ensures Distinct(keys) && forall k :: k in keys <==> k in values
  {
    keys := [];
    var left := values.Keys;
    while left != {}
      invariant left <= values.Keys
      invariant Distinct(keys) && forall k :: k in keys <==> k in values && k !in left
    {
      var key :| key in left;
      left := left - {key};
      keys := keys + [key];
    }
  }

  lemma PrintBlockNext(before: seq<Param>, key: string, vals: seq<string>, i: nat)
    requires i < |vals|
    ensures var printed, piece := Print(before + Block(key, vals)[..i]), Piece((key, vals[i]));
      Print(before + Block(key, vals)[..i + 1]) == if printed == "" then piece else Join(printed, piece)
  {
    PrintNext(before + Block(key, vals)[..i], (key, vals[i]));
    AppendNext(before, Block(key, vals), i);
  }

  method PrintBlock(printed: string, key: string, vals: seq<string>, ghost before: seq<Param>) returns (r: string)
    requires printed == Print(before)
    ensures r == Print(before + Block(key, vals))
  {
    r := printed;
    assert before + Block(key, vals)[..0] == before;
    for i := 0 to |vals|
      invariant r == Print(before + Block(key, vals)[..i])
    {
      PrintBlockNext(before, key, vals, i);
      var piece := Piece((key, vals[i]));
      r := if |r| > 0 then Join(r, piece) else piece;
    }
    assert Block(key, vals)[..|vals|] == Block(key, vals);
  }

  method SortedQueryString(values: Values) returns (r: string)
    ensures r == Printed(values)
  {
    if |values| == 0 {
      EmptyListing();
      return "";
    }
    var keys := KeysOf(values);
    SortedKeys(keys, values.Keys);
    r := PrintBlocks(Sort(keys), values);
  }

  method PrintBlocks(keys: seq<string>, values: Values) returns (r: string)
    requires forall i :: 0 <= i < |keys| ==> keys[i] in values
    ensures r == Print(PairsFor(keys, values))
  {
    r := "";
    for i := 0 to |keys|
      invariant r == Print(PairsFor(keys[..i], values))
    {
      PairsNext(keys, values, i);
      r := PrintBlock(r, keys[i], Sort(values[keys[i]]), PairsFor(keys[..i], values));
    }
    assert keys[..|keys|] == keys;
  }

  lemma PairsNext(keys: seq<string>, values: Values, i: nat)
    requires i < |keys| && forall j :: 0 <= j < |keys| ==> keys[j] in values
    ensures PairsFor(keys[..i + 1], values) == PairsFor(keys[..i], values) + Block(keys[i], Sort(values[keys[i]]))
  {
    assert keys[..i + 1][..i] == keys[..i];
  }

  lemma EmptyListing()
    ensures SortedSet({}) == []
  {
  }

  lemma SortedKeys(keys: seq<string>, all: set<string>)
    requires Distinct(keys) && forall k :: k in keys <==> k in all
    ensures Sort(keys) == SortedSet(all)
    ensures forall k :: k in Sort(keys) <==> k in all
  {
    DistinctAsSet(keys, all);
    SortEqualIff(keys, Listing(all));
    SortedSetCorrect(all);
  }

  // ---- The round trip ----

  lemma {:induction false} IndexOfJoined(a: string, sep: char, b: string)
    ensures Index(a + [sep] + b, sep) == Index(a, sep)
    ensures Index(a, sep) == |a| ==> (a + [sep] + b)[..|a|] == a && (a + [sep] + b)[|a| + 1..] == b
    ensures Index(a, sep) < |a| ==>
      var n := Index(a, sep); (a + [sep] + b)[..n] == a[..n] && (a + [sep] + b)[n + 1..] == a[n + 1..] + [sep] + b
  {
    if a != "" && a[0] != sep {
      IndexOfJoined(a[1..], sep, b);
      assert (a + [sep] + b)[1..] == a[1..] + [sep] + b;
    }
  }

  lemma {:induction false} ParamsJoin(a: string, b: string)
    ensures Params(Join(a, b)) == Params(a) + Params(b)
    decreases |a|
  {
    var n := Index(a, '&');
    if n < |a| {
      ParamsJoin(a[n + 1..], b);
      JoinAtCut(a, b, n);
      ParamsAtCut(a, n);
      Associative(ParamOf(a[..n]), Params(a[n + 1..]), Params(b));
    } else {
      JoinUncut(a, b);
      ParamsUncut(a);
    }
  }

  lemma {:induction false} JoinAtCut(a: string, b: string, n: nat)
    requires n < |a| && Index(a, '&') == n
    ensures Params(Join(a, b)) == ParamOf(a[..n]) + Params(Join(a[n + 1..], b))
  {
    IndexOfJoined(a, '&', b);
    ParamsOfParts(Join(a, b), n, a[..n], Join(a[n + 1..], b));
  }

  lemma JoinUncut(a: string, b: string)
    requires Index(a, '&') == |a|
    ensures Params(Join(a, b)) == ParamOf(a) + Params(b)
  {
    IndexOfJoined(a, '&', b);
    ParamsOfParts(Join(a, b), |a|, a, b);
  }

  lemma ParamsOfParts(q: string, n: nat, head: string, rest: string)
    requires n < |q| && Index(q, '&') == n && q[..n] == head && q[n + 1..] == rest
    ensures Params(q) == ParamOf(head) + Params(rest)
  {
    ParamsAtCut(q, n);
  }

  lemma ParamsAtCut(q: string, n: nat)
    requires n < |q| && Index(q, '&') == n
    ensures Params(q) == ParamOf(q[..n]) + Params(q[n + 1..])
  {
  }

  lemma {:induction false} ParamsUncut(q: string)
    requires Index(q, '&') == |q|
    ensures Params(q) == ParamOf(q)
  {
    assert q[..|q|] == q;
  }

  lemma PieceParts(param: Param)
    ensures var a, b, piece := Escape(param.0), Escape(param.1), Piece(param);
      && piece != "" && ';' !in piece && Index(piece, '&') == |piece|
      && Index(piece, '=') == |a| && piece[..|a|] == a && piece[|a| + 1..] == b
  {
    EscapeIsPlain(param.0);
    EscapeIsPlain(param.1);
    assert Index(Escape(param.0), '=') == |Escape(param.0)|;
    IndexOfJoined(Escape(param.0), '=', Escape(param.1));
  }

  lemma PieceRoundTrip(param: Param)
    requires IsBytes(param.0) && IsBytes(param.1)
    ensures Params(Piece(param)) == [param]
  {
    PieceParts(param);
    ParamsUncut(Piece(param));
    UnescapeEscape(param.0);
    UnescapeEscape(param.1);
  }

  predicate AllBytes(params: seq<Param>) {
    forall i :: 0 <= i < |params| ==> IsBytes(params[i].0) && IsBytes(params[i].1)
  }

  /** Printing loses nothing: parsing gives back the very list of parameters. */
  lemma {:induction false} PrintRoundTrip(params: seq<Param>)
    requires AllBytes(params)
    ensures Params(Print(params)) == params
  {
    if params != [] {
      var init, last := params[..|params| - 1], params[|params| - 1];
      PrintRoundTrip(init);
      PieceRoundTrip(last);
      if Print(init) != "" {
        ParamsJoin(Print(init), Piece(last));
      }
      InitLast(params);
    }
  }

  // ---- The printed form is canonical ----

  lemma {:induction false} BlockCounts(key: string, vals: seq<string>, k: string, v: string)
    ensures multiset(Block(key, vals))[(k, v)] == if k == key then multiset(vals)[v] else 0
  {
    if vals != [] {
      var init, last := vals[..|vals| - 1], vals[|vals| - 1];
      BlockCounts(key, init, k, v);
      assert vals == init + [last];
      assert Block(key, vals) == Block(key, init) + [(key, last)];
    }
  }

  lemma {:induction false} PairsCount(keys: seq<string>, values: Values, k: string, v: string)
    requires Distinct(keys) && forall i :: 0 <= i < |keys| ==> keys[i] in values
    ensures multiset(PairsFor(keys, values))[(k, v)] == if k in keys then multiset(values[k])[v] else 0
  {
    if keys != [] {
      var init, last := keys[..|keys| - 1], keys[|keys| - 1];
      PairsCount(init, values, k, v);
      BlockCounts(last, Sort(values[last]), k, v);
      SortCorrect(values[last]);
      assert keys == init + [last];
    }
  }

  lemma SortedPairsCount(values: Values, k: string, v: string)
    ensures multiset(SortedPairs(values))[(k, v)] == Bag(values, k)[v]
  {
    SortedSetCorrect(values.Keys);
    PairsCount(SortedSet(values.Keys), values, k, v);
  }

  predicate BytesOnly(values: Values) {
    forall k :: k in values ==> IsBytes(k) && forall i :: 0 <= i < |values[k]| ==> IsBytes(values[k][i])
  }

  lemma SortedPairsAreBytes(values: Values)
    requires BytesOnly(values)
    ensures AllBytes(SortedPairs(values))
  {
    var ps := SortedPairs(values);
    forall i | 0 <= i < |ps| ensures IsBytes(ps[i].0) && IsBytes(ps[i].1) {
      var (k, v) := ps[i];
      assert ps[i] in multiset(ps);
      SortedPairsCount(values, k, v);
      assert v in Bag(values, k);
    }
  }

  /** Parsing the printed string gives back every key's multiset of values. */
  lemma QueryRoundTrip(values: Values)
    requires BytesOnly(values)
    ensures SameParams(ParseQuery(Printed(values)), values)
  {
    SortedPairsAreBytes(values);
    PrintRoundTrip(SortedPairs(values));
    forall k ensures Bag(ParseQuery(Printed(values)), k) == Bag(values, k) {
      forall v ensures Bag(ParseQuery(Printed(values)), k)[v] == Bag(values, k)[v] {
        CollectCounts(SortedPairs(values), k, v);
        SortedPairsCount(values, k, v);
      }
    }
  }

  /** The keys that have a value; the others print nothing. */
  function UsedKeys(values: Values): set<string> {
    set k | k in values && values[k] != []
  }

  function DropUnused(keys: seq<string>, values: Values): (r: seq<string>)
    requires forall i :: 0 <= i < |keys| ==> keys[i] in values
    ensures forall k :: k in r <==> k in keys && values[k] != []
    ensures forall i :: 0 <= i < |r| ==> r[i] in values
  {
    if keys == [] then []
    else
      var init, last := DropUnused(keys[..|keys| - 1], values), keys[|keys| - 1];
      assert keys == keys[..|keys| - 1] + [last];
      if values[last] == [] then init else init + [last]
  }

  lemma {:induction false} DropUnusedKeepsOrder(keys: seq<string>, values: Values)
    requires Sorted(keys) && Distinct(keys) && forall i :: 0 <= i < |keys| ==> keys[i] in values
    ensures Sorted(DropUnused(keys, values)) && Distinct(DropUnused(keys, values))
    ensures PairsFor(DropUnused(keys, values), values) == PairsFor(keys, values)
  {
    if keys != [] {
      var init, last := keys[..|keys| - 1], keys[|keys| - 1];
      DropUnusedKeepsOrder(init, values);
      var r := DropUnused(init, values);
      forall j | 0 <= j < |r| ensures Le(r[j], last) && r[j] != last {
        assert r[j] in init;
      }
      if values[last] != [] {
        assert (r + [last])[..|r|] == r;
      }
    }
  }

  lemma PairsOfUsed(values: Values)
    ensures forall i :: 0 <= i < |SortedSet(UsedKeys(values))| ==> SortedSet(UsedKeys(values))[i] in values
    ensures SortedPairs(values) == PairsFor(SortedSet(UsedKeys(values)), values)
  {
    SortedSetCorrect(values.Keys);
    SortedSetCorrect(UsedKeys(values));
    var keys := SortedSet(values.Keys);
    DropUnusedKeepsOrder(keys, values);
    SortedSetIs(UsedKeys(values), DropUnused(keys, values));
  }

  lemma {:induction false} PairsDependOnBags(keys: seq<string>, a: Values, b: Values)
    requires SameParams(a, b) && forall i :: 0 <= i < |keys| ==> keys[i] in a && keys[i] in b
    ensures PairsFor(keys, a) == PairsFor(keys, b)
  {
    if keys != [] {
      var last := keys[|keys| - 1];
      PairsDependOnBags(keys[..|keys| - 1], a, b);
      assert Bag(a, last) == Bag(b, last);
      SortEqualIff(a[last], b[last]);
    }
  }

  lemma SameParamsPrintAlike(a: Values, b: Values)
    requires SameParams(a, b)
    ensures SortedPairs(a) == SortedPairs(b)
  {
    forall k ensures k in UsedKeys(a) <==> k in UsedKeys(b) {
      assert k in UsedKeys(a) <==> |Bag(a, k)| > 0;
      assert k in UsedKeys(b) <==> |Bag(b, k)| > 0;
    }
    assert UsedKeys(a) == UsedKeys(b);
    PairsOfUsed(a);
    PairsOfUsed(b);
    PairsDependOnBags(SortedSet(UsedKeys(a)), a, b);
  }

  /** Two queries print alike exactly when every key has the same multiset of values in both. */
  lemma PrintedAlikeIff(a: Values, b: Values)
    requires BytesOnly(a) && BytesOnly(b)
    ensures Printed(a) == Printed(b) <==> SameParams(a, b)
  {
    if SameParams(a, b) {
      SameParamsPrintAlike(a, b);
    }
    QueryRoundTrip(a);
    QueryRoundTrip(b);
    if Printed(a) == Printed(b) {
      forall k ensures Bag(a, k) == Bag(b, k) {
        assert Bag(ParseQuery(Printed(a)), k) == Bag(a, k);
        assert Bag(ParseQuery(Printed(b)), k) == Bag(b, k);
      }
    }
  }

  // ---- Tracking parameters and the URL key ----

  /** The UTF-8 bytes of a white space character at the start of a byte string, as `strings.TrimSpace` decodes them. */
  function SpaceBytes(s: string): (n: nat)
    ensures n <= |s|
  {
    if |s| >= 1 && (s[0] == ' ' || '\t' <= s[0] <= '\r') then 1
    else if |s| >= 2 && s[..2] in {"\U{C2}\U{85}", "\U{C2}\U{A0}"} then 2
    else if |s| >= 3 && WideSpace(s[..3]) then 3
    else 0
  }

  predicate WideSpace(s: string)
    requires |s| == 3
  {
    || s in {"\U{E1}\U{9A}\U{80}", "\U{E2}\U{80}\U{A8}", "\U{E2}\U{80}\U{A9}", "\U{E2}\U{80}\U{AF}"}
    || s in {"\U{E2}\U{81}\U{9F}", "\U{E3}\U{80}\U{80}"}
    || (s[..2] == "\U{E2}\U{80}" && '\U{80}' <= s[2] <= '\U{8A}')
  }

  function TrimBytesLeft(s: string): string
    decreases |s|
  {
    if SpaceBytes(s) > 0 then TrimBytesLeft(s[SpaceBytes(s)..]) else s
  }

  /** How many bytes at the end are one white space character. */
  function SpaceBytesAtEnd(s: string): (n: nat)
    ensures n <= |s|
  {
    if |s| >= 1 && SpaceBytes(s[|s| - 1..]) == 1 then 1
    else if |s| >= 2 && SpaceBytes(s[|s| - 2..]) == 2 then 2
    else if |s| >= 3 && SpaceBytes(s[|s| - 3..]) == 3 then 3
    else 0
  }

  function TrimBytesRight(s: string): string
    decreases |s|
  {
    if SpaceBytesAtEnd(s) > 0 then TrimBytesRight(s[..|s| - SpaceBytesAtEnd(s)]) else s
  }

  predicate IsTracking(key: string) {
    var k := Lower(TrimBytesRight(TrimBytesLeft(key)));
    "utm_" <= k || k in {"fbclid", "gclid", "msclkid", "mc_cid", "mc_eid"}
  }

  function Strip(values: Values): Values {
    map k | k in values && !IsTracking(k) :: values[k]
  }

  ghost function CanonicalQuery(query: string): string {
    Printed(Strip(ParseQuery(query)))
  }

  /**
    A parsed URL with its fragment dropped. `user` is the user information as printed, with its `@`; `force` tells a
    URL that ended in a bare question mark.
  */
  datatype Url = Url(scheme: string, user: string, host: string, path: string, query: string, force: bool)

  /** What parsing a URL with a host yields: no part holds a character that would end it. */
  predicate WellFormed(u: Url) {
    && Without(u.scheme, ':') && Without(u.scheme, '/') && Without(u.scheme, '?')
    && Without(u.user, '/') && Without(u.user, '?') && (u.user != "" ==> u.user[|u.user| - 1] == '@')
    && u.host != "" && Without(u.host, '/') && Without(u.host, '?') && Without(u.host, '@')
    && Without(u.path, '?') && (u.path != "" ==> u.path[0] == '/')
    && (u.force ==> u.query == "")
    && IsBytes(u.query)
  }

  function Scheme(u: Url): string {
    if u.scheme == "" then "" else u.scheme + ":"
  }

  function Front(u: Url): string {
    Scheme(u) + ("//" + (u.user + u.host + u.path))
  }

  function QueryPart(u: Url): string {
    if u.force || u.query != "" then "?" + u.query else ""
  }

  /** The URL as a string. */
  function PrintUrl(u: Url): string {
    Front(u) + QueryPart(u)
  }

  ghost function CanonicalUrl(u: Url): Url {
    u.(scheme := Lower(u.scheme), host := Lower(u.host), query := CanonicalQuery(u.query))
  }

  function TrimMarks(s: string): string {
    if s != "" && s[|s| - 1] == '?' then TrimMarks(s[..|s| - 1]) else s
  }

  ghost function KeyString(u: Url): string {
    TrimMarks(PrintUrl(CanonicalUrl(u)))
  }

  /** `canonicalURLVisitKey` of what parsing gave: no key for a URL that does not parse or has no host. */
  method CanonicalURLVisitKey(parsed: Option<Url>) returns (key: string)
    ensures key == if parsed.None? || parsed.value.host == "" then "" else KeyString(parsed.value)
  {
    if parsed.None? || parsed.value.host == "" {
      return "";
    }
    var u := parsed.value;
    u := u.(scheme := Lower(u.scheme), host := Lower(u.host));
    var query := ParseQuery(u.query);
    var left := query.Keys;
    ghost var all := query;
    while left != {}
      invariant left <= all.Keys
      invariant query == map k | k in all && (k in left || !IsTracking(k)) :: all[k]
    {
      var k :| k in left;
      left := left - {k};
      if IsTracking(k) {
        query := query - {k};
      }
    }
    assert query == Strip(all);
    var printed := SortedQueryString(query);
    u := u.(query := printed);
    key := TrimMarks(PrintUrl(u));
  }

  function Kept(params: seq<Param>): seq<Param> {
    if params == [] then []
    else
      var init, last := Kept(params[..|params| - 1]), params[|params| - 1];
      if IsTracking(last.0) then init else init + [last]
  }

  lemma {:induction false} KeptCounts(params: seq<Param>, k: string, v: string)
    ensures multiset(Kept(params))[(k, v)] == if IsTracking(k) then 0 else multiset(params)[(k, v)]
  {
    if params != [] {
      KeptCounts(params[..|params| - 1], k, v);
      assert params == params[..|params| - 1] + [params[|params| - 1]];
    }
  }

  lemma {:induction false} StripCounts(params: seq<Param>, k: string, v: string)
    ensures Bag(Strip(Collect(params)), k)[v] == multiset(Kept(params))[(k, v)]
  {
    CollectCounts(params, k, v);
    KeptCounts(params, k, v);
  }

  lemma {:induction false} ParamsAreBytes(query: string)
    requires IsBytes(query)
    ensures AllBytes(Params(query))
    decreases |query|
  {
    if query != "" {
      var n := Index(query, '&');
      var piece := query[..n];
      var m := Index(piece, '=');
      if Unescape(piece[..m]).Some? {
        UnescapeIsBytes(piece[..m]);
      }
      var value := if m < |piece| then piece[m + 1..] else "";
      if Unescape(value).Some? {
        UnescapeIsBytes(value);
      }
      if n < |query| {
        ParamsAreBytes(query[n + 1..]);
      }
    }
  }

  lemma {:induction false} CollectedBytes(params: seq<Param>)
    requires AllBytes(params)
    ensures BytesOnly(Collect(params))
  {
    if params != [] {
      CollectedBytes(params[..|params| - 1]);
    }
  }

  lemma QueryIsBytes(query: string)
    requires IsBytes(query)
    ensures BytesOnly(Strip(ParseQuery(query)))
  {
    ParamsAreBytes(query);
    CollectedBytes(Params(query));
  }

  /** Two queries have one canonical form exactly when they carry the same parameters, order and tracking aside. */
  lemma {:induction false} CanonicalAlikeIff(q1: string, q2: string)
    requires IsBytes(q1) && IsBytes(q2)
    ensures CanonicalQuery(q1) == CanonicalQuery(q2) <==> multiset(Kept(Params(q1))) == multiset(Kept(Params(q2)))
  {
    var a, b := Strip(ParseQuery(q1)), Strip(ParseQuery(q2));
    QueryIsBytes(q1);
    QueryIsBytes(q2);
    PrintedAlikeIff(a, b);
    if multiset(Kept(Params(q1))) == multiset(Kept(Params(q2))) {
      forall k ensures Bag(a, k) == Bag(b, k) {
        forall v ensures Bag(a, k)[v] == Bag(b, k)[v] {
          StripCounts(Params(q1), k, v);
          StripCounts(Params(q2), k, v);
        }
      }
    }
    if SameParams(a, b) {
      forall p: Param ensures multiset(Kept(Params(q1)))[p] == multiset(Kept(Params(q2)))[p] {
        StripCounts(Params(q1), p.0, p.1);
        StripCounts(Params(q2), p.0, p.1);
        assert Bag(a, p.0) == Bag(b, p.0);
      }
    }
  }

  /** The parameters of a canonical query are those it was made from, tracking aside. */
  lemma {:induction false} CanonicalParams(query: string)
    requires IsBytes(query)
    ensures multiset(Params(CanonicalQuery(query))) == multiset(Kept(Params(query)))
    ensures multiset(Kept(Params(CanonicalQuery(query)))) == multiset(Kept(Params(query)))
  {
    var values := Strip(ParseQuery(query));
    QueryIsBytes(query);
    SortedPairsAreBytes(values);
    PrintRoundTrip(SortedPairs(values));
    var printed := Params(CanonicalQuery(query));
    forall p: Param ensures multiset(printed)[p] == multiset(Kept(Params(query)))[p] {
      SortedPairsCount(values, p.0, p.1);
      StripCounts(Params(query), p.0, p.1);
    }
    KeptIsFixed(printed, Params(query));
  }

  lemma {:induction false} KeptIsFixed(printed: seq<Param>, params: seq<Param>)
    requires multiset(printed) == multiset(Kept(params))
    ensures multiset(Kept(printed)) == multiset(Kept(params))
  {
    forall p: Param ensures multiset(Kept(printed))[p] == multiset(Kept(params))[p] {
      KeptCounts(printed, p.0, p.1);
      KeptCounts(params, p.0, p.1);
    }
  }

  lemma {:induction false} EscapeIsBytes(s: string)
    ensures IsBytes(Escape(s))
  {
    if s != "" {
      EscapeIsBytes(s[1..]);
    }
  }

  lemma {:induction false} PrintIsBytes(params: seq<Param>)
    ensures IsBytes(Print(params))
  {
    if params != [] {
      PrintIsBytes(params[..|params| - 1]);
      PieceIsBytes(params[|params| - 1]);
    }
  }

  lemma {:induction false} EscapeHasNoMark(s: string)
    ensures Without(Escape(s), '?')
  {
    if s != "" {
      EscapeHasNoMark(s[1..]);
    }
  }

  lemma {:induction false} PrintHasNoMark(params: seq<Param>)
    ensures Without(Print(params), '?')
  {
    if params != [] {
      var last := params[|params| - 1];
      PrintHasNoMark(params[..|params| - 1]);
      EscapeHasNoMark(last.0);
      EscapeHasNoMark(last.1);
    }
  }

  lemma LastAt(user: string, host: string)
    requires Without(host, '@') && (user != "" ==> user[|user| - 1] == '@')
    ensures forall i :: |user| <= i < |user + host| ==> (user + host)[i] != '@'
    ensures user != "" ==> (user + host)[|user| - 1] == '@'
  {
  }

  lemma UserAndHost(u: Url, v: Url)
    requires WellFormed(u) && WellFormed(v) && u.user + u.host == v.user + v.host
    ensures u.user == v.user && u.host == v.host
  {
    LastAt(u.user, u.host);
    LastAt(v.user, v.host);
    assert (u.user + u.host)[..|u.user|] == u.user && (v.user + v.host)[..|v.user|] == v.user;
    assert (u.user + u.host)[|u.user|..] == u.host && (v.user + v.host)[|v.user|..] == v.host;
  }

  lemma FrontHasNoMark(u: Url)
    requires WellFormed(u)
    ensures Without(Front(u), '?')
  {
  }

  lemma SchemesAgree(u: Url, v: Url)
    requires WellFormed(u) && WellFormed(v) && Front(u) == Front(v)
    ensures u.scheme == v.scheme && u.user + u.host + u.path == v.user + v.host + v.path
  {
    SchemeShows(u);
    SchemeShows(v);
    CutScheme(Scheme(u), u.user + u.host + u.path, Scheme(v), v.user + v.host + v.path);
  }

  lemma CutScheme(s: string, a: string, t: string, b: string)
    requires s + ("//" + a) == t + ("//" + b)
    requires (s == "" && t == "") || (NamesScheme(s) && NamesScheme(t))
    ensures s == t && a == b
  {
    if s != "" {
      var m, n := s[..|s| - 1], t[..|t| - 1];
      assert s == m + [':'] && t == n + [':'];
      assert s + ("//" + a) == m + (":" + ("//" + a)) && t + ("//" + b) == n + (":" + ("//" + b));
      CutAtStop(m, ":" + ("//" + a), n, ":" + ("//" + b), ':');
    }
    assert (s + ("//" + a))[|s| + 2..] == a && (t + ("//" + b))[|t| + 2..] == b;
  }

  /** A scheme with its colon. */
  predicate NamesScheme(s: string) {
    s != "" && Without(s[..|s| - 1], ':') && s[|s| - 1] == ':'
  }

  lemma SchemeShows(u: Url)
    requires WellFormed(u)
    ensures |Front(u)| > 0 && (u.scheme == "" <==> Front(u)[0] == '/')
    ensures u.scheme != "" ==> NamesScheme(Scheme(u)) && u.scheme == Scheme(u)[..|u.scheme|]
    ensures Front(u) == Scheme(u) + ("//" + (u.user + u.host + u.path))
  {
    if u.scheme != "" {
      assert Front(u)[0] == u.scheme[0];
    }
  }

  /** A printed URL has only one reading. */
  lemma {:induction false} PrintUrlIsInjective(u: Url, v: Url)
    requires WellFormed(u) && WellFormed(v) && PrintUrl(u) == PrintUrl(v)
    ensures u == v
  {
    FrontHasNoMark(u);
    FrontHasNoMark(v);
    CutAtStop(Front(u), QueryPart(u), Front(v), QueryPart(v), '?');
    QueriesAgree(u, v);
    SchemesAgree(u, v);
    CutAtStop(u.user + u.host, u.path, v.user + v.host, v.path, '/');
    UserAndHost(u, v);
  }

  lemma QueriesAgree(u: Url, v: Url)
    requires WellFormed(u) && WellFormed(v) && QueryPart(u) == QueryPart(v)
    ensures u.query == v.query && u.force == v.force
  {
    if QueryPart(u) != "" {
      assert QueryPart(u)[1..] == u.query && QueryPart(v)[1..] == v.query;
    }
  }

  /** The canonical URL behind a key, without the bare question mark that trimming removes. */
  ghost function KeyUrl(u: Url): Url {
    CanonicalUrl(u).(force := false)
  }

  lemma {:induction false} KeyUrlIsWellFormed(u: Url)
    requires WellFormed(u)
    ensures WellFormed(KeyUrl(u)) && Without(KeyUrl(u).query, '?')
  {
    CanonicalQueryIsClean(u.query);
  }

  lemma CanonicalQueryIsClean(query: string)
    ensures IsBytes(CanonicalQuery(query)) && Without(CanonicalQuery(query), '?')
  {
    PrintIsBytes(SortedPairs(Strip(ParseQuery(query))));
    PrintHasNoMark(SortedPairs(Strip(ParseQuery(query))));
  }

  /** The key is the printed canonical URL; only a bare question mark at its end is ever trimmed. */
  lemma {:induction false} KeyIsPrintedUrl(u: Url)
    requires WellFormed(u)
    ensures KeyString(u) == PrintUrl(KeyUrl(u))
  {
    var key, c := KeyUrl(u), CanonicalUrl(u);
    KeyUrlIsWellFormed(u);
    FrontHasNoMark(key);
    assert Front(c) == Front(key) && key.query == c.query;
    NotTrimmed(key);
    if c.force && c.query == "" {
      assert PrintUrl(c) == PrintUrl(key) + "?";
      assert PrintUrl(c)[..|PrintUrl(c)| - 1] == PrintUrl(key);
    } else {
      assert PrintUrl(c) == PrintUrl(key);
    }
  }

  lemma NotTrimmed(key: Url)
    requires WellFormed(key) && !key.force && Without(key.query, '?')
    ensures TrimMarks(PrintUrl(key)) == PrintUrl(key)
  {
    FrontHasNoMark(key);
    var s := PrintUrl(key);
    if key.query != "" {
      assert s[|s| - 1] == key.query[|key.query| - 1];
    } else {
      assert s == Front(key);
    }
  }

  /** Two URLs have one key exactly when they agree but for case, order of parameters and tracking ones. */
  lemma {:induction false} KeysAlikeIff(u: Url, v: Url)
    requires WellFormed(u) && WellFormed(v)
    ensures KeyString(u) == KeyString(v) <==>
      && EqualFold(u.scheme, v.scheme) && u.user == v.user && EqualFold(u.host, v.host) && u.path == v.path
      && multiset(Kept(Params(u.query))) == multiset(Kept(Params(v.query)))
  {
    KeyIsPrintedUrl(u);
    KeyIsPrintedUrl(v);
    KeyUrlIsWellFormed(u);
    KeyUrlIsWellFormed(v);
    CanonicalAlikeIff(u.query, v.query);
    if KeyString(u) == KeyString(v) {
      PrintUrlIsInjective(KeyUrl(u), KeyUrl(v));
    }
  }

  /** A key is its own key: it has one reading as a URL, and the key of that URL is the key itself. */
  lemma {:induction false} KeyIsIdempotent(u: Url, v: Url)
    requires WellFormed(u)
    ensures WellFormed(KeyUrl(u)) && PrintUrl(KeyUrl(u)) == KeyString(u)
    ensures WellFormed(v) && PrintUrl(v) == KeyString(u) ==> v == KeyUrl(u) && KeyString(v) == KeyString(u)
  {
    KeyUrlIsWellFormed(u);
    KeyIsPrintedUrl(u);
    if WellFormed(v) && PrintUrl(v) == KeyString(u) {
      PrintUrlIsInjective(v, KeyUrl(u));
      CanonicalParams(u.query);
      LowerIdempotent(u.scheme);
      LowerIdempotent(u.host);
      KeysAlikeIff(v, u);
    }
  }

  lemma KeptJoin(a: seq<Param>, b: seq<Param>)
    ensures multiset(Kept(a + b)) == multiset(Kept(a)) + multiset(Kept(b))
  {
    forall p: Param ensures multiset(Kept(a + b))[p] == (multiset(Kept(a)) + multiset(Kept(b)))[p] {
      KeptCounts(a + b, p.0, p.1);
      KeptCounts(a, p.0, p.1);
      KeptCounts(b, p.0, p.1);
    }
  }

  /** Swapping two parts of a query around an ampersand does not change the key. */
  lemma {:induction false} ReorderingKeepsKey(u: Url, a: string, b: string)
    requires IsBytes(a) && IsBytes(b)
    ensures KeyString(u.(query := Join(a, b))) == KeyString(u.(query := Join(b, a)))
  {
    ParamsJoin(a, b);
    ParamsJoin(b, a);
    KeptJoin(Params(a), Params(b));
    KeptJoin(Params(b), Params(a));
    JoinIsBytes(a, b);
    JoinIsBytes(b, a);
    CanonicalAlikeIff(Join(a, b), Join(b, a));
  }

  /** Adding a tracking parameter, first or last, does not change the key. */
  lemma {:induction false} TrackingKeepsKey(u: Url, param: Param)
    requires IsBytes(u.query) && IsBytes(param.0) && IsBytes(param.1) && IsTracking(param.0)
    ensures KeyString(u.(query := Join(u.query, Piece(param)))) == KeyString(u)
    ensures KeyString(u.(query := Join(Piece(param), u.query))) == KeyString(u)
  {
    var a := u.query;
    PieceIsBytes(param);
    PieceRoundTrip(param);
    ParamsJoin(a, Piece(param));
    KeptJoin(Params(a), [param]);
    OneTracking(param);
    JoinIsBytes(a, Piece(param));
    CanonicalAlikeIff(Join(a, Piece(param)), a);
    assert u.(query := a) == u;
    ReorderingKeepsKey(u, a, Piece(param));
  }

  lemma JoinIsBytes(a: string, b: string)
    requires IsBytes(a) && IsBytes(b)
    ensures IsBytes(Join(a, b))
  {
  }

  lemma PieceIsBytes(param: Param)
    ensures IsBytes(Piece(param))
  {
    EscapeIsBytes(param.0);
    EscapeIsBytes(param.1);
  }

  lemma OneTracking(param: Param)
    requires IsTracking(param.0)
    ensures Kept([param]) == []
  {
    assert [param][..0] == [];
  }
}
