/** The `key=value;key=value` text that carries engine parameters: how it is cut up, which
    entries it yields, and when printing and parsing are inverse. */
module KeyValueText {
  import opened Basics

  // ---- cutting at a separator ------------------------------------------------------------

  predicate MatchAt(s: string, sep: string, i: int) {
    0 <= i && i + |sep| <= |s| && s[i..i + |sep|] == sep
  }

  /** std::string::find: the first match at or after `from`. */
  function Find(s: string, sep: string, from: nat): (r: Option<nat>)
    ensures r.Some? ==> from <= r.value && r.value + |sep| <= |s| && MatchAt(s, sep, r.value)
    ensures forall i :: from <= i && (r.Some? ==> i < r.value) ==> !MatchAt(s, sep, i)
    decreases |s| - from
  {
    if MatchAt(s, sep, from) then Some(from)
    else if from >= |s| then None
    else Find(s, sep, from + 1)
  }

  /** The pieces between separators, the empty ones left out. */
  function Tokens(s: string, sep: string): seq<string>
    requires sep != ""
    decreases |s|
  {
    match Find(s, sep, 0)
    case None => if s == "" then [] else [s]
    case Some(i) => (if i == 0 then [] else [s[..i]]) + Tokens(s[i + |sep|..], sep)
  }

  lemma TokensNone(s: string, sep: string)
    requires sep != "" && Find(s, sep, 0) == None
    ensures Tokens(s, sep) == if s == "" then [] else [s]
  {
  }

  lemma TokensSome(s: string, sep: string, i: nat)
    requires sep != "" && Find(s, sep, 0) == Some(i)
    ensures Tokens(s, sep) == (if i == 0 then [] else [s[..i]]) + Tokens(s[i + |sep|..], sep)
  {
  }

  /** Searching from a position is searching the suffix. */
  lemma FindShift(s: string, sep: string, from: nat)
    requires from <= |s|
    ensures Find(s[from..], sep, 0).Some? <==> Find(s, sep, from).Some?
    ensures Find(s, sep, from).Some? ==> Find(s, sep, from).value == from + Find(s[from..], sep, 0).value
  {
    forall i: nat
      ensures MatchAt(s[from..], sep, i) <==> MatchAt(s, sep, from + i)
    {
      if from + i + |sep| <= |s| {
        assert s[from..][i..i + |sep|] == s[from + i..from + i + |sep|];
      }
    }
    if Find(s, sep, from).Some? {
      assert MatchAt(s[from..], sep, Find(s, sep, from).value - from);
    }
    if Find(s[from..], sep, 0).Some? {
      assert MatchAt(s, sep, from + Find(s[from..], sep, 0).value);
    }
  }

  /** Cutting a suffix, by the search that starts where it does. */
  lemma TokensFromNone(s: string, sep: string, from: nat)
    requires from <= |s| && sep != "" && Find(s, sep, from) == None
    ensures Tokens(s[from..], sep) == if from == |s| then [] else [s[from..]]
  {
    FindShift(s, sep, from);
  }

  lemma TokensFromSome(s: string, sep: string, from: nat, i: nat)
    requires from <= |s| && sep != "" && Find(s, sep, from) == Some(i)
    ensures Tokens(s[from..], sep) == (if i == from then [] else [s[from..i]]) + Tokens(s[i + |sep|..], sep)
  {
    hide Find, MatchAt, Tokens;
    FindShift(s, sep, from);
    Suffix(s, from, i, |sep|);
    TokensCut(s[from..], sep, i - from, s[from..i], s[i + |sep|..]);
  }

  lemma TokensCut(t: string, sep: string, k: nat, head: string, tail: string)
    requires sep != "" && Find(t, sep, 0) == Some(k) && t[..k] == head && t[k + |sep|..] == tail
    ensures Tokens(t, sep) == (if k == 0 then [] else [head]) + Tokens(tail, sep)
  {
    hide Find, MatchAt;
    TokensSome(t, sep, k);
  }

  lemma Suffix(s: string, from: nat, i: nat, n: nat)
    requires from <= i && i + n <= |s|
    ensures s[from..][i - from + n..] == s[i + n..]
    ensures s[from..][..i - from] == s[from..i]
  {
  }

  /** StringUtil::Split. An empty separator makes the original loop for ever. */
  method Split(s: string, sep: string) returns (res: seq<string>)
    requires sep != ""
    ensures res == Tokens(s, sep)
  {
    hide Tokens;
    res := [];
    var startPos := 0;
    var findPos := Find(s, sep, startPos);
    assert s[0..] == s;
    while findPos.Some?
      invariant 0 <= startPos <= |s| && findPos == Find(s, sep, startPos)
      invariant res + Tokens(s[startPos..], sep) == Tokens(s, sep)
      decreases |s| - startPos
    {
      TokensFromSome(s, sep, startPos, findPos.value);
      if findPos.value > startPos {
        res := res + [s[startPos..findPos.value]];
      }
      startPos := findPos.value + |sep|;
      findPos := Find(s, sep, startPos);
    }
    TokensFromNone(s, sep, startPos);
    if startPos < |s| {
      res := res + [s[startPos..]];
    }
  }

  /** No piece is empty and none holds the separator. */
  lemma {:induction false} TokensAreClean(s: string, sep: string)
    requires sep != ""
    ensures forall t :: t in Tokens(s, sep) ==> t != "" && forall i :: !MatchAt(t, sep, i)
    decreases |s|
  {
    var r := Find(s, sep, 0);
    if r.Some? {
      forall i: nat
        ensures !MatchAt(s[..r.value], sep, i)
      {
        if i + |sep| <= r.value {
          assert s[..r.value][i..i + |sep|] == s[i..i + |sep|];
          assert !MatchAt(s, sep, i);
        }
      }
      TokensAreClean(s[r.value + |sep|..], sep);
    }
  }

  lemma MatchChar(s: string, c: char, i: int)
    ensures MatchAt(s, [c], i) <==> 0 <= i < |s| && s[i] == c
  {
    if 0 <= i < |s| {
      assert s[i..i + 1] == [s[i]];
    }
  }

  lemma FindChar(s: string, c: char)
    ensures Find(s, [c], 0).Some? <==> c in s
    ensures var r := Find(s, [c], 0); r.Some? ==> r.value < |s| && s[r.value] == c && c !in s[..r.value]
  {
    forall i: nat
      ensures MatchAt(s, [c], i) <==> i < |s| && s[i] == c
    {
      MatchChar(s, c, i);
    }
    if c in s {
      var i :| 0 <= i < |s| && s[i] == c;
      assert MatchAt(s, [c], i);
    }
  }

  /** A first occurrence is the one found. */
  lemma FindFirst(a: string, c: char, b: string)
    requires c !in a
    ensures Find(a + [c] + b, [c], 0) == Some(|a|)
  {
    var s := a + [c] + b;
    FindChar(s, c);
    assert s[|a|] == c;
    MatchChar(s, c, |a|);
  }

  /** Cutting distributes over a separator: wherever one stands, both sides are cut on their own. */
  lemma {:induction false} TokensSplit(a: string, c: char, b: string)
    ensures Tokens(a + [c] + b, [c]) == Tokens(a, [c]) + Tokens(b, [c])
    decreases |a|
  {
    hide Find, MatchAt, Tokens;
    var s := a + [c] + b;
    FindChar(a, c);
    match Find(a, [c], 0)
    case None =>
      TokensNone(a, [c]);
      FindFirst(a, c, b);
      TokensSome(s, [c], |a|);
      assert s[..|a|] == a && s[|a| + 1..] == b;
    case Some(i) =>
      var rest := a[i + 1..];
      TokensSome(a, [c], i);
      assert s == a[..i] + [c] + (rest + [c] + b);
      FindFirst(a[..i], c, rest + [c] + b);
      TokensSome(s, [c], i);
      assert s[..i] == a[..i] && s[i + 1..] == rest + [c] + b;
      TokensSplit(rest, c, b);
  }

  function Join(ts: seq<string>, c: char): string {
    if ts == [] then "" else if |ts| == 1 then ts[0] else ts[0] + [c] + Join(ts[1..], c)
  }

  ghost predicate Clean(ts: seq<string>, c: char) {
    forall t :: t in ts ==> t != "" && c !in t
  }

  /** Joining and cutting are inverse on exactly the lists of non-empty, separator-free pieces. */
  lemma JoinRoundTrip(ts: seq<string>, c: char)
    ensures Tokens(Join(ts, c), [c]) == ts <==> Clean(ts, c)
  {
    if Clean(ts, c) {
      JoinCut(ts, c);
    }
    if Tokens(Join(ts, c), [c]) == ts {
      CleanTokens(Join(ts, c), c);
    }
  }

  lemma CleanTokens(s: string, c: char)
    ensures Clean(Tokens(s, [c]), c)
  {
    TokensAreClean(s, [c]);
    forall t | t in Tokens(s, [c])
      ensures c !in t
    {
      if c in t {
        var i :| 0 <= i < |t| && t[i] == c;
        MatchChar(t, c, i);
      }
    }
  }

  lemma {:induction false} JoinCut(ts: seq<string>, c: char)
    requires Clean(ts, c)
    ensures Tokens(Join(ts, c), [c]) == ts
  {
    hide Find, MatchAt, Tokens;
    if ts == [] {
      FindChar("", c);
      TokensNone("", [c]);
    } else {
      FindChar(ts[0], c);
      TokensNone(ts[0], [c]);
      if |ts| > 1 {
        TokensSplit(ts[0], c, Join(ts[1..], c));
        assert forall t :: t in ts[1..] ==> t in ts;
        JoinCut(ts[1..], c);
      }
    }
  }

  // ---- trimming --------------------------------------------------------------------------

  /** Space, tab, line feed, vertical tab, form feed and carriage return: code 32 and codes 9 to 13. */
  predicate IsSpace(c: char): (space: bool)
    ensures space <==> c as int == 32 || 9 <= c as int <= 13
  {
    c in [' ', '\t', '\n', 11 as char, 12 as char, '\r']
  }

  ghost predicate Blank(s: string) {
    forall c :: c in s ==> IsSpace(c)
  }

  /** Non-empty, and neither end is a space. */
  predicate Trimmed(s: string) {
    s != "" && !IsSpace(s[0]) && !IsSpace(s[|s| - 1])
  }

  method TrimL(s: string) returns (t: string)
    ensures |t| <= |s| && t == s[|s| - |t|..] && Blank(s[..|s| - |t|])
    ensures t != "" ==> !IsSpace(t[0])
  {
    var p := 0;
    while p < |s| && IsSpace(s[p])
      invariant 0 <= p <= |s| && Blank(s[..p])
    {
      p := p + 1;
    }
    if p == |s| {
      t := "";
    } else {
      t := s[p..];
    }
    assert t == s[p..] && |t| == |s| - p;
  }

  method TrimR(s: string) returns (t: string)
    ensures |t| <= |s| && t == s[..|t|] && Blank(s[|t|..])
    ensures t != "" ==> !IsSpace(t[|t| - 1])
  {
    var p := |s|;
    while p > 0 && IsSpace(s[p - 1])
      invariant 0 <= p <= |s| && Blank(s[p..])
    {
      p := p - 1;
    }
    if p == 0 {
      t := "";
    } else {
      t := s[..p];
    }
    assert t == s[..p] && |t| == p;
  }

  /** `t` is what trimming leaves of `s`. */
  ghost predicate TrimsTo(s: string, t: string) {
    && (exists l, r :: Blank(l) && Blank(r) && s == l + t + r)
    && (t == "" || Trimmed(t))
  }

  method Trim(s: string) returns (t: string)
    ensures TrimsTo(s, t)
  {
    hide Blank, TrimsTo;
    var u := TrimL(s);
    t := TrimR(u);
    ghost var l, r := s[..|s| - |u|], u[|t|..];
    assert s == l + u && u == t + r;
    StripIsTrim(l, u, r, t);
  }

  lemma StripIsTrim(l: string, u: string, r: string, t: string)
    requires Blank(l) && Blank(r) && u == t + r
    requires u != "" ==> !IsSpace(u[0])
    requires t != "" ==> !IsSpace(t[|t| - 1])
    ensures TrimsTo(l + u, t)
  {
    assert l + u == l + t + r;
    if t != "" {
      assert u[0] == t[0];
    }
  }

  /** Trimming has one result. */
  lemma TrimUnique(s: string, t: string, u: string)
    requires TrimsTo(s, t) && TrimsTo(s, u)
    ensures t == u
  {
    var l, r :| Blank(l) && Blank(r) && s == l + t + r;
    var m, n :| Blank(m) && Blank(n) && s == m + u + n;
    TrimBounds(l, t, r, m, u, n);
    TrimBounds(m, u, n, l, t, r);
    if t != "" {
      assert t == s[|l|..|l| + |t|] && u == s[|m|..|m| + |u|];
    }
  }

  /** A trimmed core lies inside every other way of stripping blanks from the same text. */
  lemma TrimBounds(l: string, t: string, r: string, m: string, u: string, n: string)
    requires Blank(l) && Blank(r) && Blank(m) && Blank(n) && l + t + r == m + u + n
    requires t == "" || Trimmed(t)
    ensures t != "" ==> u != "" && |m| <= |l| && |l| + |t| <= |m| + |u|
  {
    if t != "" {
      var s := l + t + r;
      var i, j := |l|, |l| + |t| - 1;
      assert s[i] == t[0] && s[j] == t[|t| - 1];
    }
  }

  // ---- one entry -------------------------------------------------------------------------

  /** The line reads `key = value` up to blanks: the key is all before the first equals sign. */
  ghost predicate Reads(line: string, key: string, value: string) {
    exists a, b :: line == a + "=" + b && '=' !in a && TrimsTo(a, key) && TrimsTo(b, value)
                   && key != "" && value != ""
  }

  /** Only one reading is possible. */
  lemma ReadsUnique(line: string, k: string, v: string, k2: string, v2: string)
    requires Reads(line, k, v) && Reads(line, k2, v2)
    ensures k == k2 && v == v2
  {
    var a, b :| line == a + "=" + b && '=' !in a && TrimsTo(a, k) && TrimsTo(b, v);
    var a2, b2 :| line == a2 + "=" + b2 && '=' !in a2 && TrimsTo(a2, k2) && TrimsTo(b2, v2);
    FindFirst(a, '=', b);
    FindFirst(a2, '=', b2);
    assert a == line[..|a|] && b == line[|a| + 1..];
    assert a2 == line[..|a2|] && b2 == line[|a2| + 1..];
    TrimUnique(a, k, k2);
    TrimUnique(b, v, v2);
  }

  /** StringUtil::SplitLineToPair; `first` and `second` are the caller's variables, which a line
      without a usable equals sign leaves alone. */
  method SplitLineToPair(line: string, first0: string, second0: string)
    returns (ok: bool, first: string, second: string)
    ensures ok ==> Reads(line, first, second)
    ensures !ok ==> forall k, v :: !Reads(line, k, v)
    ensures '=' !in line || '=' !in line[..|line| - 1] ==> first == first0 && second == second0
    ensures '=' in line && '=' in line[..|line| - 1] ==>
              exists a, b :: line == a + "=" + b && '=' !in a && TrimsTo(a, first) && TrimsTo(b, second)
  {
    ok, first, second := false, first0, second0;
    if line == "" {
      return;
    }
    var pos := Find(line, "=", 0);
    FindChar(line, '=');
    if pos == None || pos.value == |line| - 1 {
      forall k, v
        ensures !Reads(line, k, v)
      {
        NotAtEnd(line, k, v);
      }
      return;
    }
    first := line[..pos.value];
    second := line[pos.value + 1..];
    ghost var a, b := first, second;
    assert line == a + "=" + b;
    assert line[..|line| - 1][pos.value] == '=';
    first := Trim(first);
    second := Trim(second);
    ok := first != "" && second != "";
    if !ok {
      forall k, v
        ensures !Reads(line, k, v)
      {
        Unreadable(line, a, b, first, second, k, v);
      }
    }
  }

  lemma NotAtEnd(line: string, k: string, v: string)
    requires var r := Find(line, "=", 0); r == None || r.value == |line| - 1
    ensures !Reads(line, k, v)
  {
    if Reads(line, k, v) {
      var a, b :| line == a + "=" + b && '=' !in a && TrimsTo(a, k) && TrimsTo(b, v);
      FindFirst(a, '=', b);
    }
  }

  lemma Unreadable(line: string, a: string, b: string, first: string, second: string, k: string, v: string)
    requires line == a + "=" + b && '=' !in a && TrimsTo(a, first) && TrimsTo(b, second)
    requires first == "" || second == ""
    ensures !Reads(line, k, v)
  {
    if Reads(line, k, v) {
      var a2, b2 :| line == a2 + "=" + b2 && '=' !in a2 && TrimsTo(a2, k) && TrimsTo(b2, v);
      FindFirst(a, '=', b);
      FindFirst(a2, '=', b2);
      assert a == line[..|a|] == a2 && b == line[|a| + 1..] == b2;
      TrimUnique(a, first, k);
      TrimUnique(b, second, v);
    }
  }

  // ---- the whole text --------------------------------------------------------------------

  type Params = map<string, string>

  /** `after` is `before` with the readable lines stored in order, later ones winning. */
  ghost predicate Stores(lines: seq<string>, before: Params, after: Params)
    decreases |lines|
  {
    if lines == [] then after == before
    else
      var init := lines[..|lines| - 1];
      var line := lines[|lines| - 1];
      exists mid :: Stores(init, before, mid) && StoresOne(line, mid, after)
  }

  ghost predicate StoresOne(line: string, before: Params, after: Params) {
    (exists k, v :: Reads(line, k, v) && after == before[k := v])
    || ((forall k, v :: !Reads(line, k, v)) && after == before)
  }

  lemma {:induction false} StoresUnique(lines: seq<string>, before: Params, x: Params, y: Params)
    requires Stores(lines, before, x) && Stores(lines, before, y)
    ensures x == y
    decreases |lines|
  {
    hide Reads;
    if lines != [] {
      var init, line := lines[..|lines| - 1], lines[|lines| - 1];
      var m :| Stores(init, before, m) && StoresOne(line, m, x);
      var n :| Stores(init, before, n) && StoresOne(line, n, y);
      StoresUnique(init, before, m, n);
      if k, v :| Reads(line, k, v) && x == m[k := v] {
        var k2, v2 :| Reads(line, k2, v2) && y == n[k2 := v2];
        ReadsUnique(line, k, v, k2, v2);
      }
    }
  }

  /** A line that cannot be read changes nothing. */
  lemma JunkIgnored(lines: seq<string>, junk: string, before: Params, after: Params)
    requires forall k, v :: !Reads(junk, k, v)
    ensures Stores(lines + [junk], before, after) <==> Stores(lines, before, after)
  {
    assert (lines + [junk])[..|lines|] == lines;
    if Stores(lines, before, after) {
      assert StoresOne(junk, after, after);
    }
  }

  /** A line that can is stored over whatever the lines before it have left. */
  lemma ReadableStored(lines: seq<string>, line: string, k: string, v: string,
                       before: Params, mid: Params, after: Params)
    requires Reads(line, k, v) && Stores(lines, before, mid)
    ensures Stores(lines + [line], before, after) <==> after == mid[k := v]
  {
    assert (lines + [line])[..|lines|] == lines;
    assert StoresOne(line, mid, mid[k := v]);
    if Stores(lines + [line], before, after) {
      StoresUnique(lines + [line], before, after, mid[k := v]);
    }
  }

  lemma StoresNothing(before: Params)
    ensures Stores([], before, before)
  {
  }

  lemma StoresNext(lines: seq<string>, i: nat, before: Params, mid: Params, after: Params)
    requires i < |lines| && Stores(lines[..i], before, mid) && StoresOne(lines[i], mid, after)
    ensures Stores(lines[..i + 1], before, after)
  {
    assert lines[..i + 1][..i] == lines[..i];
  }

  /** IntellVoiceUtil::SplitStringToKVPair, adding to the caller's map. */
  method SplitStringToKVPair(text: string, before: Params) returns (kvpairs: Params)
    ensures Stores(Tokens(text, ";"), before, kvpairs)
  {
    hide Stores, Reads, Tokens;
    kvpairs := before;
    StoresNothing(before);
    var paramsList := Split(text, ";");
    for i := 0 to |paramsList|
      invariant Stores(paramsList[..i], before, kvpairs)
    {
      ghost var was := kvpairs;
      var ok, key, value := SplitLineToPair(paramsList[i], "", "");
      if ok {
        kvpairs := kvpairs[key := value];
      }
      StoresNext(paramsList, i, before, was, kvpairs);
    }
    assert paramsList[..|paramsList|] == paramsList;
  }

  // ---- printing --------------------------------------------------------------------------

  /** The entries that survive a trip through the text. */
  ghost predicate Plain(key: string, value: string) {
    Trimmed(key) && Trimmed(value) && '=' !in key && ';' !in key && ';' !in value
  }

  function Print(p: (string, string)): string {
    p.0 + "=" + p.1
  }

  function PrintAll(ps: seq<(string, string)>): string {
    Join(seq(|ps|, i requires 0 <= i < |ps| => Print(ps[i])), ';')
  }

  function Assign(m: Params, ps: seq<(string, string)>): Params
    decreases |ps|
  {
    if ps == [] then m else Assign(m, ps[..|ps| - 1])[ps[|ps| - 1].0 := ps[|ps| - 1].1]
  }

  /** What assigning in order means: of several entries for a key the last one counts. */
  lemma {:induction false} LaterWins(m: Params, ps: seq<(string, string)>, i: nat)
    requires i < |ps| && forall j :: i < j < |ps| ==> ps[j].0 != ps[i].0
    ensures ps[i].0 in Assign(m, ps) && Assign(m, ps)[ps[i].0] == ps[i].1
    decreases |ps|
  {
    var n := |ps| - 1;
    if i < n {
      assert ps[..n][i] == ps[i];
      LaterWins(m, ps[..n], i);
    }
  }

  /** A key without an entry keeps what it had. */
  lemma {:induction false} OthersKeep(m: Params, ps: seq<(string, string)>, key: string)
    requires forall i :: 0 <= i < |ps| ==> ps[i].0 != key
    ensures (key in Assign(m, ps) <==> key in m) && (key in m ==> Assign(m, ps)[key] == m[key])
    decreases |ps|
  {
    if ps != [] {
      OthersKeep(m, ps[..|ps| - 1], key);
    }
  }

  lemma PrintReads(p: (string, string))
    requires Plain(p.0, p.1)
    ensures Reads(Print(p), p.0, p.1) && Print(p) != "" && ';' !in Print(p)
  {
    assert p.0 == "" + p.0 + "" && p.1 == "" + p.1 + "";
    assert Blank("");
    assert TrimsTo(p.0, p.0) && TrimsTo(p.1, p.1);
    assert Print(p) == p.0 + "=" + p.1;
  }

  lemma {:induction false} PrintedStores(lines: seq<string>, ps: seq<(string, string)>, before: Params)
    requires |lines| == |ps|
    requires forall i :: 0 <= i < |ps| ==> Plain(ps[i].0, ps[i].1) && lines[i] == Print(ps[i])
    ensures Stores(lines, before, Assign(before, ps))
    decreases |ps|
  {
    if ps != [] {
      var n := |ps| - 1;
      PrintedStores(lines[..n], ps[..n], before);
      PrintReads(ps[n]);
      assert StoresOne(lines[n], Assign(before, ps[..n]), Assign(before, ps));
    }
  }

  /** Every list of plain entries, printed and parsed onto any map, is assigned to that map in
      order: values may hold equals signs, and later entries win. */
  lemma PrintParse(ps: seq<(string, string)>, before: Params, after: Params)
    requires forall i :: 0 <= i < |ps| ==> Plain(ps[i].0, ps[i].1)
    ensures Stores(Tokens(PrintAll(ps), ";"), before, after) <==> after == Assign(before, ps)
  {
    var lines := seq(|ps|, i requires 0 <= i < |ps| => Print(ps[i]));
    forall t | t in lines
      ensures t != "" && ';' !in t
    {
      var i :| 0 <= i < |lines| && lines[i] == t;
      PrintReads(ps[i]);
    }
    JoinRoundTrip(lines, ';');
    PrintedStores(lines, ps, before);
    if Stores(lines, before, after) {
      StoresUnique(lines, before, after, Assign(before, ps));
    }
  }

  ghost predicate AllPlain(m: Params) {
    forall k :: k in m ==> Plain(k, m[k])
  }

  lemma ReadsPlain(line: string, k: string, v: string)
    requires Reads(line, k, v) && ';' !in line
    ensures Plain(k, v)
  {
    var a, b :| line == a + "=" + b && '=' !in a && TrimsTo(a, k) && TrimsTo(b, v);
    TrimKeeps(a, k, '=');
    TrimKeeps(a, k, ';');
    TrimKeeps(b, v, ';');
  }

  lemma TrimKeeps(s: string, t: string, c: char)
    requires TrimsTo(s, t) && c !in s
    ensures c !in t
  {
    var l, r :| Blank(l) && Blank(r) && s == l + t + r;
    assert forall x :: x in t ==> x in l + t + r;
  }

  /** Whatever the text, what it stores is plain. */
  lemma {:induction false} StoredArePlain(lines: seq<string>, before: Params, after: Params)
    requires Stores(lines, before, after) && Clean(lines, ';') && AllPlain(before)
    ensures AllPlain(after)
    decreases |lines|
  {
    hide Plain, Reads;
    if lines != [] {
      var init, line := lines[..|lines| - 1], lines[|lines| - 1];
      var mid :| Stores(init, before, mid) && StoresOne(line, mid, after);
      assert forall t :: t in init ==> t in lines;
      StoredArePlain(init, before, mid);
      if k, v :| Reads(line, k, v) && after == mid[k := v] {
        ReadsPlain(line, k, v);
      }
    }
  }

  /** A single printed entry comes back as itself exactly when it is plain. */
  lemma OneEntryRoundTrip(key: string, value: string)
    ensures Stores(Tokens(key + "=" + value, ";"), map[], map[key := value]) <==> Plain(key, value)
  {
    var ps := [(key, value)];
    if Plain(key, value) {
      PrintParse(ps, map[], map[key := value]);
      assert PrintAll(ps) == Print(ps[0]);
      assert Assign(map[], ps) == map[key := value];
    }
    if Stores(Tokens(key + "=" + value, ";"), map[], map[key := value]) {
      CleanTokens(key + "=" + value, ';');
      StoredArePlain(Tokens(key + "=" + value, ";"), map[], map[key := value]);
      assert key in map[key := value];
    }
  }

  /** Parsing normalises: the entries any text yields, printed in any order, yield themselves. */
  lemma Reparse(text: string, m: Params, ps: seq<(string, string)>)
    requires Stores(Tokens(text, ";"), map[], m)
    requires forall i :: 0 <= i < |ps| ==> ps[i].0 in m && m[ps[i].0] == ps[i].1
    requires forall k :: k in m ==> (k, m[k]) in ps
    ensures Stores(Tokens(PrintAll(ps), ";"), map[], m)
  {
    CleanTokens(text, ';');
    StoredArePlain(Tokens(text, ";"), map[], m);
    AssignListing(ps, m, |ps|);
    assert ps[..|ps|] == ps;
    assert Assign(map[], ps) == m;
    PrintParse(ps, map[], m);
  }

  lemma {:induction false} AssignListing(ps: seq<(string, string)>, m: Params, n: nat)
    requires n <= |ps|
    requires forall i :: 0 <= i < |ps| ==> ps[i].0 in m && m[ps[i].0] == ps[i].1
    ensures var x := Assign(map[], ps[..n]);
            (forall k :: k in x ==> k in m && x[k] == m[k]) && forall i :: 0 <= i < n ==> ps[i].0 in x
  {
    if n > 0 {
      AssignListing(ps, m, n - 1);
      assert ps[..n][..n - 1] == ps[..n - 1];
    }
  }
}
