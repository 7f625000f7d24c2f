/** Strings as the program handles them: sanitising label keys, printing list
    indices, and splitting dotted queries. */
module Text {
  datatype Option<+T> = None | Some(value: T)

  predicate IsDigit(c: char) {
    '0' <= c <= '9'
  }

  predicate IsLetter(c: char) {
    'a' <= c <= 'z' || 'A' <= c <= 'Z'
  }

  /** The characters that the regular expression class `\w` stands for. */
  predicate IsWord(c: char) {
    IsLetter(c) || IsDigit(c) || c == '_'
  }

  ghost predicate AllWord(s: string) {
    forall i :: 0 <= i < |s| ==> IsWord(s[i])
  }

  function SanitiseChar(c: char): char {
    if !IsWord(c) then '_' else if 'A' <= c <= 'Z' then (c as int + 32) as char else c
  }

  /** Every character outside `\w` becomes an underscore, then all is lower-cased. */
  function Sanitise(s: string): string {
    seq(|s|, i requires 0 <= i < |s| => SanitiseChar(s[i]))
  }

  /** A sanitised key is made of `[0-9a-z_]`, and sanitising it again changes nothing. */
  lemma SanitisedKey(s: string)
    ensures |Sanitise(s)| == |s| && AllWord(Sanitise(s))
    ensures forall i :: 0 <= i < |s| ==> !('A' <= Sanitise(s)[i] <= 'Z')
    ensures Sanitise(Sanitise(s)) == Sanitise(s)
  {
  }

  /** Digits, underscores and small letters stay, capitals become small, and all
      else becomes an underscore. */
  lemma SanitisedChars(s: string, i: nat)
    requires i < |s|
    ensures |Sanitise(s)| == |s|
    ensures '0' <= s[i] <= '9' || 'a' <= s[i] <= 'z' || s[i] == '_' ==> Sanitise(s)[i] == s[i]
    ensures 'A' <= s[i] <= 'Z' ==>
              'a' <= Sanitise(s)[i] <= 'z' && Sanitise(s)[i] as int - 'a' as int == s[i] as int - 'A' as int
    ensures !('0' <= s[i] <= '9' || 'a' <= s[i] <= 'z' || 'A' <= s[i] <= 'Z') ==> Sanitise(s)[i] == '_'
  {
  }

  // ---- Concatenation ----

  function Concat(parts: seq<string>): string {
    if parts == [] then "" else parts[0] + Concat(parts[1..])
  }

  lemma {:induction false} ConcatAppend(parts: seq<string>, more: seq<string>)
    ensures Concat(parts + more) == Concat(parts) + Concat(more)
  {
    if parts == [] {
      assert parts + more == more;
    } else {
      ConcatAppend(parts[1..], more);
      assert (parts + more)[1..] == parts[1..] + more;
    }
  }

  lemma ConcatOne(parts: seq<string>, last: string)
    ensures Concat(parts + [last]) == Concat(parts) + last
  {
    ConcatAppend(parts, [last]);
    assert [last][1..] == [];
  }

  // ---- Decimal indices ----

  function Itoa(n: nat): string {
    (if n < 10 then "" else Itoa(n / 10)) + [('0' as int + n % 10) as char]
  }

  ghost function Atoi(s: string): int {
    if s == "" then 0 else Atoi(s[..|s| - 1]) * 10 + (s[|s| - 1] as int - '0' as int)
  }

  lemma {:induction false} AtoiItoa(n: nat)
    ensures Atoi(Itoa(n)) == n
  {
    if n >= 10 {
      AtoiItoa(n / 10);
    } else {
      assert Itoa(n)[..0] == "";
    }
    var s := Itoa(n);
    assert s[..|s| - 1] == if n < 10 then "" else Itoa(n / 10);
  }

  /** Printed indices are decimal numerals without leading zeros. */
  lemma {:induction false} ItoaIsDecimal(n: nat)
    ensures Itoa(n) != "" && (forall i :: 0 <= i < |Itoa(n)| ==> '0' <= Itoa(n)[i] <= '9')
    ensures n > 0 ==> Itoa(n)[0] != '0'
    ensures Atoi(Itoa(n)) == n
  {
    AtoiItoa(n);
    if n >= 10 {
      ItoaIsDecimal(n / 10);
    }
  }

  /** Different indices of a list get different keys. */
  lemma ItoaInjective(m: nat, n: nat)
    requires Itoa(m) == Itoa(n)
    ensures m == n
  {
    AtoiItoa(m);
    AtoiItoa(n);
  }

  // ---- Dotted paths ----

  /** Splitting at every dot: the empty string has one empty segment. */
  function Split(s: string): (r: seq<string>)
    ensures r != []
  {
    if s == "" then [""]
    else if s[0] == '.' then [""] + Split(s[1..])
    else var r := Split(s[1..]); [[s[0]] + r[0]] + r[1..]
  }

  function Join(path: seq<string>): string
    requires path != []
  {
    if |path| == 1 then path[0] else path[0] + "." + Join(path[1..])
  }

  ghost predicate DotFree(s: string) {
    '.' !in s
  }

  lemma {:induction false} SplitPrefix(s: string, rest: string)
    requires DotFree(s)
    ensures Split(s + "." + rest) == [s] + Split(rest)
    ensures Split(s) == [s]
  {
    var t := s + "." + rest;
    if s == "" {
      assert t[1..] == rest;
    } else {
      SplitPrefix(s[1..], rest);
      assert t[1..] == s[1..] + "." + rest;
      assert [s[0]] + s[1..] == s;
    }
  }

  /** A query written from dot-free segments names exactly that path. */
  lemma {:induction false} SplitJoin(path: seq<string>)
    requires path != []
    requires forall i :: 0 <= i < |path| ==> DotFree(path[i])
    ensures Split(Join(path)) == path
  {
    if |path| == 1 {
      SplitPrefix(path[0], "");
    } else {
      SplitJoin(path[1..]);
      SplitPrefix(path[0], Join(path[1..]));
    }
  }

  /** Every query is such a path, so no query escapes the theorem above. */
  lemma {:induction false} JoinSplit(s: string)
    ensures Join(Split(s)) == s
    ensures forall i :: 0 <= i < |Split(s)| ==> DotFree(Split(s)[i])
  {
    if s != "" {
      JoinSplit(s[1..]);
      var r := Split(s[1..]);
      if s[0] == '.' {
        assert Split(s)[1..] == r;
        assert s == "." + s[1..];
      } else {
        assert Split(s)[1..] == r[1..];
        assert s == [s[0]] + s[1..];
        if |r| > 1 {
          assert Join(Split(s)) == ([s[0]] + r[0]) + "." + Join(r[1..]);
        }
      }
    }
  }

  // ---- Ranging over a map ----

  /** Go ranges over a map in any order, without repeats. */
  ghost predicate Enumerates(order: seq<string>, dom: set<string>) {
    && (forall i, j :: 0 <= i < j < |order| ==> order[i] != order[j])
    && (forall u :: u in order <==> u in dom)
  }

  ghost function Pick(ks: set<string>): (k: string)
    requires ks != {}
    ensures k in ks
  {
    var k :| k in ks; k
  }

  ghost function AnyOrder(dom: set<string>): (order: seq<string>)
    ensures Enumerates(order, dom)
  {
    if dom == {} then []
    else
      var u := Pick(dom);
      var rest := AnyOrder(dom - {u});
      assert forall v :: v in [u] + rest <==> v == u || v in rest;
      [u] + rest
  }

  lemma FrontEnumerates(order: seq<string>, dom: set<string>)
    requires Enumerates(order, dom) && order != []
    ensures Enumerates(order[..|order| - 1], dom - {order[|order| - 1]})
  {
    var n := |order| - 1;
    assert order == order[..n] + [order[n]];
  }

  lemma {:induction false} EnumerationLength(order: seq<string>, dom: set<string>)
    requires Enumerates(order, dom)
    ensures |order| == |dom|
    decreases |order|
  {
    if order == [] {
      assert dom == {};
    } else {
      var k := order[|order| - 1];
      FrontEnumerates(order, dom);
      EnumerationLength(order[..|order| - 1], dom - {k});
    }
  }
}
