/** The string handling the dashboard relies on, written as the JavaScript
    built-ins it calls: String.prototype.trim, split(','), Array.join(','),
    toLowerCase and includes.  Strings are sequences of chars. */
module Text {

  type TokenId = string

  /** The code points ECMAScript counts as WhiteSpace or LineTerminator:
      exactly what String.prototype.trim removes at both ends. */
  predicate IsJsWhitespace(c: char) {
    c == '\U{9}' || c == '\U{A}' || c == '\U{B}' || c == '\U{C}' || c == '\U{D}'
    || c == ' ' || c == '\U{A0}' || c == '\U{1680}'
    || ('\U{2000}' <= c <= '\U{200A}')
    || c == '\U{2028}' || c == '\U{2029}' || c == '\U{202F}' || c == '\U{205F}'
    || c == '\U{3000}' || c == '\U{FEFF}'
  }

  /** A string that trim() leaves as it is. */
  predicate IsTrimmed(s: string) {
    s == [] || (!IsJsWhitespace(s[0]) && !IsJsWhitespace(s[|s| - 1]))
  }

  /** Every character of `w` is whitespace. */
  predicate AllWhitespace(w: string) {
    forall k :: 0 <= k < |w| ==> IsJsWhitespace(w[k])
  }

  lemma WhitespaceConcat(a: string, b: string)
    requires AllWhitespace(a) && AllWhitespace(b)
    ensures AllWhitespace(a + b)
  {
    forall k | 0 <= k < |a + b|
      ensures IsJsWhitespace((a + b)[k])
    {
      if k < |a| {
        assert (a + b)[k] == a[k];
      } else {
        assert (a + b)[k] == b[k - |a|];
      }
    }
  }

  /** Drops the leading whitespace: the result is the longest suffix of `s`
      that does not start with whitespace, and everything dropped was whitespace. */
  function TrimStart(s: string): (r: string)
    ensures |r| <= |s| && r == s[|s| - |r|..]
    ensures AllWhitespace(s[..|s| - |r|])
    ensures r == [] || !IsJsWhitespace(r[0])
  {
    if |s| > 0 && IsJsWhitespace(s[0]) then
      var r := TrimStart(s[1..]);
      assert s[..|s| - |r|] == [s[0]] + s[1..][..|s| - 1 - |r|];
      WhitespaceConcat([s[0]], s[1..][..|s| - 1 - |r|]);
      r
    else s
  }

  /** Drops the trailing whitespace: the longest prefix of `s` that does not
      end in whitespace, and everything dropped was whitespace. */
  function TrimEnd(s: string): (r: string)
    ensures |r| <= |s| && r == s[..|r|]
    ensures AllWhitespace(s[|r|..])
    ensures r == [] || !IsJsWhitespace(r[|r| - 1])
  {
    if |s| > 0 && IsJsWhitespace(s[|s| - 1]) then
      var r := TrimEnd(s[..|s| - 1]);
      assert s[|r|..] == s[..|s| - 1][|r|..] + [s[|s| - 1]];
      WhitespaceConcat(s[..|s| - 1][|r|..], [s[|s| - 1]]);
      r
    else s
  }

  /** String.prototype.trim: `s` with its leading and trailing whitespace
      removed, and nothing else. */
  function Trim(s: string): (r: string)
    ensures IsTrimmed(r)
    ensures exists i, j :: 0 <= i <= j <= |s| && r == s[i..j] && AllWhitespace(s[..i]) && AllWhitespace(s[j..])
    ensures IsTrimmed(s) ==> r == s
    ensures forall c :: c in r ==> c in s
  {
    TrimStartKeeps(s);
    TrimEndKeeps(TrimStart(s));
    TrimSlice(s, TrimStart(s), TrimEnd(TrimStart(s)));
    TrimEnd(TrimStart(s))
  }

  /** A prefix `r` of a suffix `t` of `s`, with only whitespace dropped on
      either side, is a slice of `s` with only whitespace around it. */
  lemma TrimSlice(s: string, t: string, r: string)
    requires |t| <= |s| && t == s[|s| - |t|..] && AllWhitespace(s[..|s| - |t|])
    requires |r| <= |t| && r == t[..|r|] && AllWhitespace(t[|r|..])
    ensures exists i, j :: 0 <= i <= j <= |s| && r == s[i..j] && AllWhitespace(s[..i]) && AllWhitespace(s[j..])
  {
    var i := |s| - |t|;
    var j := i + |r|;
    assert s[j..] == t[|r|..];
    SuffixPrefix(s, i, |r|);
  }

  /** A prefix of a suffix is a slice. */
  lemma SuffixPrefix<T>(s: seq<T>, i: nat, n: nat)
    requires i + n <= |s|
    ensures s[i..][..n] == s[i..i + n]
  {
  }

  lemma TrimStartKeeps(s: string)
    ensures forall c :: c in TrimStart(s) ==> c in s
  {
    var t := TrimStart(s);
    forall c | c in t
      ensures c in s
    {
      var i :| 0 <= i < |t| && t[i] == c;
      assert s[|s| - |t| + i] == c;
    }
  }

  lemma TrimEndKeeps(s: string)
    ensures forall c :: c in TrimEnd(s) ==> c in s
  {
    var t := TrimEnd(s);
    forall c | c in t
      ensures c in s
    {
      var i :| 0 <= i < |t| && t[i] == c;
      assert s[i] == c;
    }
  }

  /** `s.split(sep)` for a one-character separator: the pieces between the
      separators, an empty piece where two separators meet or at either end. */
  function Split(s: string, sep: char): (parts: seq<string>)
    ensures |parts| >= 1
    ensures forall p :: p in parts ==> sep !in p
    decreases |s|
  {
    if s == [] then [[]]
    else
      var rest := Split(s[1..], sep);
      if s[0] == sep then [[]] + rest else [[s[0]] + rest[0]] + rest[1..]
  }

  /** `parts.join(sep)`: the empty array joins to the empty string. */
  function Join(parts: seq<string>, sep: char): string
  {
    if |parts| == 0 then []
    else if |parts| == 1 then parts[0]
    else parts[0] + [sep] + Join(parts[1..], sep)
  }

  /** `.map(id => id.trim()).filter(id => id)`: trims every piece and keeps
      the non-empty ones, in order. */
  function TrimNonEmpty(pieces: seq<string>): (ids: seq<TokenId>)
    ensures |ids| <= |pieces|
    ensures forall id :: id in ids ==> id != [] && IsTrimmed(id)
    ensures (forall p :: p in pieces ==> ',' !in p) ==> forall id :: id in ids ==> ',' !in id
  {
    if pieces == [] then []
    else
      var t := Trim(pieces[0]);
      (if t == [] then [] else [t]) + TrimNonEmpty(pieces[1..])
  }

  /** The token-ID list typed into (or generated for) the tokenIds field:
      `input.split(',').map(id => id.trim()).filter(id => id)`.  Every ID
      is non-empty, carries no surrounding whitespace and holds no comma. */
  function ParseTokenIds(input: string): (ids: seq<TokenId>)
    ensures forall id :: id in ids ==> id != [] && IsTrimmed(id) && ',' !in id
  {
    TrimNonEmpty(Split(input, ','))
  }

  /** The ASCII part of String.prototype.toLowerCase, which is all a
      hexadecimal address can contain. */
  function LowerChar(c: char): char {
    if 'A' <= c <= 'Z' then (c as int + 32) as char else c
  }

  function ToLower(s: string): (r: string)
    ensures |r| == |s|
    ensures forall i :: 0 <= i < |s| ==> r[i] == LowerChar(s[i])
  {
    if s == [] then [] else [LowerChar(s[0])] + ToLower(s[1..])
  }

  /** `a.toLowerCase() === b.toLowerCase()`: address equality ignoring case. */
  predicate SameAddress(a: string, b: string) {
    ToLower(a) == ToLower(b)
  }

  /** `sub` occurs in `s` at position `i`. */
  predicate OccursAt(s: string, sub: string, i: int) {
    0 <= i && i + |sub| <= |s| && s[i..i + |sub|] == sub
  }

  /** The characters of `sub` from index `k` on match those of `s` from `i + k` on. */
  predicate MatchesFrom(s: string, sub: string, i: nat, k: nat)
    requires i + |sub| <= |s| && k <= |sub|
    decreases |sub| - k
  {
    k == |sub| || (s[i + k] == sub[k] && MatchesFrom(s, sub, i, k + 1))
  }

  /** `sub` occurs in `s` at some position `i` or later. */
  predicate ContainsFrom(s: string, sub: string, i: nat)
    decreases |s| - i
  {
    i + |sub| <= |s| && (MatchesFrom(s, sub, i, 0) || ContainsFrom(s, sub, i + 1))
  }

  /** String.prototype.includes. */
  predicate Contains(s: string, sub: string) {
    ContainsFrom(s, sub, 0)
  }

  // ---------------------------------------------------------------------
  // Lemmas

  lemma {:induction false} MatchesFromIff(s: string, sub: string, i: nat, k: nat)
    requires i + |sub| <= |s| && k <= |sub|
    ensures MatchesFrom(s, sub, i, k) <==> s[i + k..i + |sub|] == sub[k..]
    decreases |sub| - k
  {
    if k < |sub| {
      MatchesFromIff(s, sub, i, k + 1);
      assert s[i + k..i + |sub|] == [s[i + k]] + s[i + k + 1..i + |sub|];
      assert sub[k..] == [sub[k]] + sub[k + 1..];
    }
  }

  lemma {:induction false} ContainsFromIff(s: string, sub: string, i: nat)
    ensures ContainsFrom(s, sub, i) <==> exists j :: i <= j && OccursAt(s, sub, j)
    decreases |s| - i
  {
    if i + |sub| <= |s| {
      MatchesFromIff(s, sub, i, 0);
      ContainsFromIff(s, sub, i + 1);
      assert sub[0..] == sub;
      if MatchesFrom(s, sub, i, 0) {
        assert OccursAt(s, sub, i);
      }
      if exists j :: i <= j && OccursAt(s, sub, j) {
        var j :| i <= j && OccursAt(s, sub, j);
        assert j == i || (i + 1 <= j && OccursAt(s, sub, j));
      }
    } else {
      assert forall j :: i <= j ==> !OccursAt(s, sub, j);
    }
  }

  /** includes() holds exactly when the substring occurs at some position. */
  lemma ContainsIff(s: string, sub: string)
    ensures Contains(s, sub) <==> exists i :: OccursAt(s, sub, i)
  {
    ContainsFromIff(s, sub, 0);
  }

  /** A witness position is enough to establish includes(). */
  lemma ContainsAt(s: string, sub: string, i: int)
    requires OccursAt(s, sub, i)
    ensures Contains(s, sub)
  {
    ContainsIff(s, sub);
  }

  /** A string without one of the characters of `sub` does not contain it. */
  lemma NotContainsMissing(s: string, sub: string, c: char)
    requires c in sub && c !in s
    ensures !Contains(s, sub)
  {
    ContainsIff(s, sub);
    var j :| 0 <= j < |sub| && sub[j] == c;
    forall i | 0 <= i
      ensures !OccursAt(s, sub, i)
    {
      if i + |sub| <= |s| {
        assert s[i..i + |sub|][j] == s[i + j] != c;
      }
    }
  }

  /** An occurrence in `a + b` lies inside `a`, inside `b`, or across the
      boundary; the last is impossible when the last character of `a` does
      not occur in `sub`.  This is how a long fixed text is shown free of a
      pattern, one word at a time. */
  lemma NotContainsAcross(a: string, b: string, sub: string)
    requires a != [] && a[|a| - 1] !in sub
    requires !Contains(a, sub) && !Contains(b, sub)
    ensures !Contains(a + b, sub)
  {
    ContainsIff(a, sub);
    ContainsIff(b, sub);
    ContainsIff(a + b, sub);
    forall i | 0 <= i
      ensures !OccursAt(a + b, sub, i)
    {
      if i + |sub| > |a + b| {
      } else if i + |sub| <= |a| {
        assert (a + b)[i..i + |sub|] == a[i..i + |sub|];
        assert !OccursAt(a, sub, i);
      } else if i >= |a| {
        assert (a + b)[i..i + |sub|] == b[i - |a|..i - |a| + |sub|];
        assert !OccursAt(b, sub, i - |a|);
      } else {
        assert (a + b)[i..i + |sub|][|a| - 1 - i] == a[|a| - 1];
      }
    }
  }

  /** A text cut in two pieces, each missing a character of `sub`, with a
      last character of the first piece that `sub` does not have, does not
      contain `sub`. */
  lemma NotContainsTwoPieces(s: string, a: string, b: string, sub: string, ca: char, cb: char)
    requires s == a + b && a != [] && a[|a| - 1] !in sub
    requires ca in sub && ca !in a && cb in sub && cb !in b
    ensures !Contains(s, sub)
  {
    NotContainsMissing(a, sub, ca);
    NotContainsMissing(b, sub, cb);
    NotContainsAcross(a, b, sub);
  }

  /** The same with a short middle piece between the two. */
  lemma NotContainsThreePieces(s: string, a: string, b: string, c: string, sub: string, ca: char, cc: char)
    requires s == a + (b + c) && a != [] && b != [] && a[|a| - 1] !in sub && b[|b| - 1] !in sub
    requires |b| < |sub| && ca in sub && ca !in a && cc in sub && cc !in c
    ensures !Contains(s, sub)
  {
    NotContainsMissing(a, sub, ca);
    NotContainsMissing(c, sub, cc);
    assert !Contains(b, sub);
    NotContainsAcross(b, c, sub);
    NotContainsAcross(a, b + c, sub);
  }

  /** trim() changes a string exactly when it has whitespace at an end. */
  lemma TrimFixedPoint(s: string)
    ensures Trim(s) == s <==> IsTrimmed(s)
  {
  }

  /** Splitting a string that starts with a separator-free prefix `a`:
      `a` becomes the beginning of the first piece. */
  lemma {:induction false} SplitPrefix(a: string, t: string, sep: char)
    requires sep !in a
    ensures Split(a + t, sep) == [a + Split(t, sep)[0]] + Split(t, sep)[1..]
    decreases |a|
  {
    if a != [] {
      assert (a + t)[1..] == a[1..] + t;
      SplitPrefix(a[1..], t, sep);
      assert [a[0]] + (a[1..] + Split(t, sep)[0]) == a + Split(t, sep)[0];
    } else {
      assert a + t == t;
      assert a + Split(t, sep)[0] == Split(t, sep)[0];
      assert Split(t, sep) == [Split(t, sep)[0]] + Split(t, sep)[1..];
    }
  }

  /** join(',') then split(',') gives the pieces back, as long as no piece
      holds the separator. */
  lemma {:induction false} SplitJoin(parts: seq<string>, sep: char)
    requires |parts| >= 1
    requires forall p :: p in parts ==> sep !in p
    ensures Split(Join(parts, sep), sep) == parts
    decreases |parts|
  {
    if |parts| == 1 {
      SplitPrefix(parts[0], [], sep);
      assert parts[0] + [] == parts[0];
    } else {
      var rest := Join(parts[1..], sep);
      SplitJoin(parts[1..], sep);
      assert Split([sep] + rest, sep) == [[]] + Split(rest, sep);
      assert parts[0] + [sep] + rest == parts[0] + ([sep] + rest);
      SplitPrefix(parts[0], [sep] + rest, sep);
      assert parts[0] + [] == parts[0];
      assert parts == [parts[0]] + parts[1..];
    }
  }

  /** split(',') then join(',') gives the string back. */
  lemma {:induction false} JoinSplit(s: string, sep: char)
    ensures Join(Split(s, sep), sep) == s
    decreases |s|
  {
    if s != [] {
      var rest := Split(s[1..], sep);
      JoinSplit(s[1..], sep);
      if s[0] == sep {
        assert Join([[]] + rest, sep) == [] + [sep] + Join(rest, sep);
      } else if |rest| == 1 {
        assert Join(Split(s, sep), sep) == [s[0]] + rest[0];
      } else {
        assert rest == [rest[0]] + rest[1..];
        assert Join(rest, sep) == rest[0] + [sep] + Join(rest[1..], sep);
        assert Join(Split(s, sep), sep) == ([s[0]] + rest[0]) + [sep] + Join(rest[1..], sep);
      }
    }
  }

  /** Pieces that are already trimmed and non-empty pass the map/filter unchanged. */
  lemma {:induction false} TrimNonEmptyKeeps(ids: seq<TokenId>)
    requires forall k :: 0 <= k < |ids| ==> ids[k] != [] && IsTrimmed(ids[k])
    ensures TrimNonEmpty(ids) == ids
  {
    if ids != [] {
      TrimNonEmptyKeeps(ids[1..]);
      assert Trim(ids[0]) == ids[0];
    }
  }


  /** An empty field parses to no IDs. */
  lemma ParseEmpty()
    ensures ParseTokenIds([]) == []
  {
    var parts := Split([], ',');
    assert parts == [[]];
    assert TrimNonEmpty(parts[1..]) == [];
  }

  /** Joining token IDs with ',' (what the selection writes into the tokenIds
      field) and parsing the field again gives back the same list, in the same
      order and with its duplicates, provided the IDs are non-empty, trimmed
      and comma-free, which every parsed ID is. */
  lemma ParseJoinRoundTrip(ids: seq<TokenId>)
    requires forall id :: id in ids ==> id != [] && IsTrimmed(id) && ',' !in id
    ensures ParseTokenIds(Join(ids, ',')) == ids
  {
    if ids == [] {
      assert Join(ids, ',') == [];
      ParseEmpty();
    } else {
      SplitJoin(ids, ',');
      forall k | 0 <= k < |ids|
        ensures ids[k] != [] && IsTrimmed(ids[k])
      {
        assert ids[k] in ids;
      }
      TrimNonEmptyKeeps(ids);
      assert ParseTokenIds(Join(ids, ',')) == TrimNonEmpty(Split(Join(ids, ','), ','));
    }
  }

  /** Parsing is idempotent through a join: re-parsing the joined output of a
      parse gives the same IDs. */
  lemma ParseIsStable(input: string)
    ensures ParseTokenIds(Join(ParseTokenIds(input), ',')) == ParseTokenIds(input)
  {
    ParseJoinRoundTrip(ParseTokenIds(input));
  }

  /** Splitting at one separator splits the two sides independently. */
  lemma {:induction false} SplitAtSeparator(a: string, b: string, sep: char)
    ensures Split(a + [sep] + b, sep) == Split(a, sep) + Split(b, sep)
    decreases |a|
  {
    var s := a + [sep] + b;
    if a == [] {
      assert s == [sep] + b;
      assert s[1..] == b;
    } else {
      assert s[0] == a[0];
      assert s[1..] == a[1..] + [sep] + b;
      SplitAtSeparator(a[1..], b, sep);
      var ra := Split(a[1..], sep);
      var rb := Split(b, sep);
      if a[0] == sep {
        AppendAssoc([[]], ra, rb);
      } else {
        assert (ra + rb)[0] == ra[0];
        assert (ra + rb)[1..] == ra[1..] + rb;
        AppendAssoc([[a[0]] + ra[0]], ra[1..], rb);
      }
    }
  }

  /** Text without the separator is one piece. */
  lemma SplitWithoutSeparator(s: string, sep: char)
    requires sep !in s
    ensures Split(s, sep) == [s]
  {
    SplitPrefix(s, [], sep);
    assert s + [] == s;
  }

  /** Dropping empty pieces distributes over concatenation. */
  lemma {:induction false} TrimNonEmptyAppend(p: seq<string>, q: seq<string>)
    ensures TrimNonEmpty(p + q) == TrimNonEmpty(p) + TrimNonEmpty(q)
    decreases |p|
  {
    if p == [] {
      assert p + q == q;
    } else {
      assert (p + q)[0] == p[0];
      assert (p + q)[1..] == p[1..] + q;
      TrimNonEmptyAppend(p[1..], q);
      var t := Trim(p[0]);
      AppendAssoc(if t == [] then [] else [t], TrimNonEmpty(p[1..]), TrimNonEmpty(q));
    }
  }

  /** The IDs of a comma-joined input are the IDs of its two sides, in order. */
  lemma ParseSplitsAtComma(a: string, b: string)
    ensures ParseTokenIds(a + [','] + b) == ParseTokenIds(a) + ParseTokenIds(b)
  {
    SplitAtSeparator(a, b, ',');
    TrimNonEmptyAppend(Split(a, ','), Split(b, ','));
  }

  /** Input without a comma holds at most one ID: itself, trimmed. */
  lemma ParseWithoutComma(s: string)
    requires ',' !in s
    ensures ParseTokenIds(s) == if Trim(s) == [] then [] else [Trim(s)]
  {
    SplitWithoutSeparator(s, ',');
    assert [s][1..] == [];
  }

  // -----------------------------------------------------------------------
  // Sequence identities, stated once so that proofs can cite them

  lemma AppendAssoc<T>(a: seq<T>, b: seq<T>, c: seq<T>)
    ensures a + b + c == a + (b + c)
  {
  }

  lemma PrefixOfAppend<T>(a: seq<T>, t: seq<T>)
    ensures a <= a + t
  {
  }

  lemma PrefixKept<T>(a: seq<T>, s: seq<T>, t: seq<T>)
    requires a <= s
    ensures a <= s + t
  {
    assert forall k :: 0 <= k < |a| ==> (s + t)[k] == s[k];
  }

  lemma SliceConcat<T>(s: seq<T>, i: nat, j: nat)
    requires i <= j <= |s|
    ensures s[i..j] + s[j..] == s[i..]
  {
  }

  lemma EmptyAppend<T>(s: seq<T>)
    ensures [] + s == s
  {
  }
}
