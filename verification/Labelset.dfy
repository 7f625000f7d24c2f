/** One sample line: `internal/metric.go`. */
module Labelset {
  import opened Text
  import opened Exposition
  import opened Output

  // ---- The order on label keys: by length, then lexicographic ----

  predicate LexLess(a: string, b: string) {
    b != "" && (a == "" || a[0] < b[0] || (a[0] == b[0] && LexLess(a[1..], b[1..])))
  }

  predicate KeyLess(a: string, b: string) {
    if |a| == |b| then LexLess(a, b) else |a| < |b|
  }

  lemma {:induction false} LexTotal(a: string, b: string)
    ensures !LexLess(a, a)
    ensures !(LexLess(a, b) && LexLess(b, a))
    ensures a != b ==> LexLess(a, b) || LexLess(b, a)
  {
    if a != "" {
      LexTotal(a[1..], if b == "" then b else b[1..]);
    }
    if a != "" && b != "" && a[0] == b[0] && a != b {
      assert a == [a[0]] + a[1..] && b == [b[0]] + b[1..];
    }
  }

  lemma {:induction false} LexTransitive(a: string, b: string, c: string)
    requires LexLess(a, b) && LexLess(b, c)
    ensures LexLess(a, c)
  {
    if a != "" && b != "" && c != "" && a[0] == b[0] == c[0] {
      LexTransitive(a[1..], b[1..], c[1..]);
    }
  }

  /** The comparison that `sort.Slice` is given is a strict total order on keys. */
  lemma {:induction false} KeyOrder(a: string, b: string, c: string)
    ensures !KeyLess(a, a)
    ensures !(KeyLess(a, b) && KeyLess(b, a))
    ensures a != b ==> KeyLess(a, b) || KeyLess(b, a)
    ensures KeyLess(a, b) && KeyLess(b, c) ==> KeyLess(a, c)
    ensures !KeyLess(b, a) && !KeyLess(c, b) ==> !KeyLess(c, a)
  {
    LexTotal(a, b);
    LexTotal(b, c);
    LexTotal(a, c);
    if LexLess(a, b) && LexLess(b, c) {
      LexTransitive(a, b, c);
    }
    if LexLess(c, a) && LexLess(a, b) {
      LexTransitive(c, a, b);
    }
  }

  lemma {:induction false} LexMeans(a: string, b: string)
    requires |a| == |b|
    ensures LexLess(a, b) <==> exists p :: 0 <= p < |a| && a[..p] == b[..p] && a[p] < b[p]
  {
    if a != "" {
      LexMeans(a[1..], b[1..]);
      if a[0] == b[0] && LexLess(a[1..], b[1..]) {
        var p :| 0 <= p < |a[1..]| && a[1..][..p] == b[1..][..p] && a[1..][p] < b[1..][p];
        assert a[..p + 1] == [a[0]] + a[1..][..p] && b[..p + 1] == [b[0]] + b[1..][..p];
        assert a[p + 1] < b[p + 1];
      }
      if p :| 0 < p < |a| && a[..p] == b[..p] && a[p] < b[p] {
        assert a[0] == a[..p][0] == b[..p][0] == b[0];
        assert a[1..][..p - 1] == a[..p][1..] && b[1..][..p - 1] == b[..p][1..];
        assert a[1..][p - 1] < b[1..][p - 1];
      }
      if a[0] < b[0] {
        assert a[..0] == b[..0];
      }
    }
  }

  /** A key comes before another if it is shorter, or as long and smaller at the
      first character in which they differ. */
  lemma ShorterFirst(a: string, b: string)
    ensures KeyLess(a, b) <==>
            |a| < |b| || (|a| == |b| && exists p :: 0 <= p < |a| && a[..p] == b[..p] && a[p] < b[p])
  {
    if |a| == |b| {
      LexMeans(a, b);
    }
  }

  ghost predicate Ordered(ls: seq<Label>) {
    forall i, j :: 0 <= i < j < |ls| ==> !KeyLess(ls[j].name, ls[i].name)
  }

  /** `ls` is one way of sorting `pairs`: all that `sort.Slice` promises. */
  ghost predicate Arranges(ls: seq<Label>, pairs: multiset<Label>) {
    multiset(ls) == pairs && Ordered(ls)
  }

  /** Equal keys carry equal values. */
  ghost predicate Consistent(pairs: multiset<Label>) {
    forall p, q :: p in pairs && q in pairs && p.name == q.name ==> p == q
  }

  lemma {:induction false} SameFirst(ps: seq<Label>, qs: seq<Label>)
    requires Ordered(ps) && Ordered(qs) && multiset(ps) == multiset(qs)
    requires ps != [] && qs != []
    requires Consistent(multiset(ps))
    ensures ps[0] == qs[0]
  {
    var p, q := ps[0], qs[0];
    assert p in multiset(ps) && q in multiset(qs);
    var k :| 0 <= k < |qs| && qs[k] == p;
    var m :| 0 <= m < |ps| && ps[m] == q;
    KeyOrder(p.name, q.name, q.name);
  }

  lemma {:induction false} DropFirst(ps: seq<Label>)
    requires ps != [] && Ordered(ps)
    ensures Ordered(ps[1..]) && multiset(ps[1..]) == multiset(ps) - multiset{ps[0]}
    ensures Consistent(multiset(ps)) ==> Consistent(multiset(ps[1..]))
  {
    assert ps == [ps[0]] + ps[1..];
    assert forall p :: p in multiset(ps[1..]) ==> p in multiset(ps);
  }

  lemma SameLength(ps: seq<Label>, qs: seq<Label>)
    requires multiset(ps) == multiset(qs)
    ensures |ps| == |qs|
  {
    assert |multiset(ps)| == |ps| && |multiset(qs)| == |qs|;
  }

  lemma {:induction false} ConsistentMeansUnique(ps: seq<Label>, qs: seq<Label>)
    requires Ordered(ps) && Ordered(qs) && multiset(ps) == multiset(qs)
    requires Consistent(multiset(ps))
    ensures ps == qs
    decreases |ps|
  {
    hide KeyLess;
    hide Ordered;
    hide Consistent;
    SameLength(ps, qs);
    if ps != [] {
      var p, rest, others := ps[0], ps[1..], qs[1..];
      SameFirst(ps, qs);
      DropFirst(ps);
      DropFirst(qs);
      assert rest == others by {
        ConsistentMeansUnique(rest, others);
      }
      assert ps == [p] + rest && qs == [p] + others;
    }
  }

  /** Two entries with the same key can trade places in a sorted list. */
  lemma SwapKeepsOrder(ps: seq<Label>, i: nat, j: nat)
    requires Ordered(ps) && i < j < |ps| && ps[i].name == ps[j].name
    ensures Arranges(ps[i := ps[j]][j := ps[i]], multiset(ps))
  {
    var qs := ps[i := ps[j]][j := ps[i]];
    assert forall k :: 0 <= k < |ps| ==> qs[k].name == ps[k].name;
  }

  /** The sorted line is the same whatever order the pairs came in, exactly when
      no key is given two values. Otherwise what `sort.Slice` promises leaves at
      least two results open. */
  lemma ArrangementUnique(ps: seq<Label>)
    requires Ordered(ps)
    ensures Consistent(multiset(ps)) <==> forall qs :: Arranges(qs, multiset(ps)) ==> qs == ps
  {
    if Consistent(multiset(ps)) {
      forall qs | Arranges(qs, multiset(ps)) ensures qs == ps {
        ConsistentMeansUnique(ps, qs);
      }
    } else {
      var qs := AnotherArrangement(ps);
      assert Arranges(qs, multiset(ps));
    }
  }

  lemma {:induction false} AnotherArrangement(ps: seq<Label>) returns (qs: seq<Label>)
    requires Ordered(ps) && !Consistent(multiset(ps))
    ensures Arranges(qs, multiset(ps)) && qs != ps
  {
    var p, q :| p in multiset(ps) && q in multiset(ps) && p.name == q.name && p != q;
    var i :| 0 <= i < |ps| && ps[i] == p;
    var j :| 0 <= j < |ps| && ps[j] == q;
    var a, b := if i < j then i else j, if i < j then j else i;
    SwapKeepsOrder(ps, a, b);
    qs := ps[a := ps[b]][b := ps[a]];
    assert qs[a] == ps[b];
  }

  // ---- Ways of sorting ----

  /** All that `sort.Slice` promises of its result. Whatever else it does depends on
      nothing but the slice. */
  ghost predicate Sorts(sort: seq<Label> -> seq<Label>) {
    forall ls :: Arranges(sort(ls), multiset(ls))
  }

  type Sorter = sort: seq<Label> -> seq<Label> | Sorts(sort) witness InsertionSort

  function Insert(ls: seq<Label>, x: Label): seq<Label> {
    if ls == [] then [x]
    else
      var n := |ls| - 1;
      if !KeyLess(x.name, ls[n].name) then ls + [x] else Insert(ls[..n], x) + [ls[n]]
  }

  lemma {:induction false} InsertArranges(ls: seq<Label>, x: Label)
    requires Ordered(ls)
    ensures Arranges(Insert(ls, x), multiset(ls) + multiset{x})
  {
    if ls != [] {
      var n := |ls| - 1;
      var front := ls[..n];
      assert ls == front + [ls[n]];
      if !KeyLess(x.name, ls[n].name) {
        forall i | 0 <= i < n ensures !KeyLess(x.name, ls[i].name) {
          KeyOrder(ls[i].name, ls[n].name, x.name);
        }
      } else {
        InsertArranges(front, x);
        var mid := Insert(front, x);
        forall i | 0 <= i < |mid| ensures !KeyLess(ls[n].name, mid[i].name) {
          assert mid[i] in multiset(mid);
          assert mid[i] == x || mid[i] in front;
          KeyOrder(x.name, ls[n].name, x.name);
        }
      }
    }
  }

  /** One way of sorting. */
  function InsertionSort(ls: seq<Label>): (r: seq<Label>)
    ensures Arranges(r, multiset(ls))
  {
    if ls == [] then []
    else
      var n := |ls| - 1;
      assert ls == ls[..n] + [ls[n]];
      InsertArranges(InsertionSort(ls[..n]), ls[n]);
      Insert(InsertionSort(ls[..n]), ls[n])
  }

  /** The values under one key, in order. */
  function ValuesOf(ls: seq<Label>, name: string): seq<string> {
    if ls == [] then []
    else
      var n := |ls| - 1;
      ValuesOf(ls[..n], name) + if ls[n].name == name then [ls[n].value] else []
  }

  /** A sort that keeps equal keys in order. */
  ghost predicate Stable(sort: Sorter) {
    forall ls, name :: ValuesOf(sort(ls), name) == ValuesOf(ls, name)
  }

  lemma {:induction false} InsertKeepsValues(ls: seq<Label>, x: Label, name: string)
    requires Ordered(ls)
    ensures ValuesOf(Insert(ls, x), name) == ValuesOf(ls + [x], name)
  {
    hide KeyLess;
    assert (ls + [x])[..|ls|] == ls;
    if ls != [] {
      var n := |ls| - 1;
      if KeyLess(x.name, ls[n].name) {
        var mid := Insert(ls[..n], x);
        KeyOrder(x.name, ls[n].name, "");
        InsertKeepsValues(ls[..n], x, name);
        assert (ls[..n] + [x])[..n] == ls[..n] && (mid + [ls[n]])[..|mid|] == mid;
      }
    }
  }

  lemma {:induction false} InsertionKeepsValues(ls: seq<Label>, name: string)
    ensures ValuesOf(InsertionSort(ls), name) == ValuesOf(ls, name)
  {
    if ls != [] {
      var n := |ls| - 1;
      var front := InsertionSort(ls[..n]);
      InsertionKeepsValues(ls[..n], name);
      InsertKeepsValues(front, ls[n], name);
      assert (front + [ls[n]])[..|front|] == front;
    }
  }

  lemma InsertionIsStable()
    ensures Stable(InsertionSort)
  {
    forall ls, name ensures ValuesOf(InsertionSort(ls), name) == ValuesOf(ls, name) {
      InsertionKeepsValues(ls, name);
    }
  }

  lemma {:induction false} ValuesOfMember(ls: seq<Label>, l: Label)
    requires l in ls
    ensures l.value in ValuesOf(ls, l.name)
  {
    var n := |ls| - 1;
    if ls[n] != l {
      ValuesOfMember(ls[..n], l);
    }
  }

  lemma {:induction false} MemberOfValues(ls: seq<Label>, name: string, v: string)
    requires v in ValuesOf(ls, name)
    ensures Label(name, v) in ls
  {
    var n := |ls| - 1;
    if ls[n] != Label(name, v) {
      MemberOfValues(ls[..n], name, v);
    }
  }

  ghost predicate SameValues(ps: seq<Label>, qs: seq<Label>) {
    forall name :: ValuesOf(ps, name) == ValuesOf(qs, name)
  }

  /** No key of `qs` comes after the last of `ps`. */
  lemma LastBounds(ps: seq<Label>, qs: seq<Label>)
    requires Ordered(ps) && SameValues(ps, qs) && qs != []
    ensures ps != [] && !KeyLess(ps[|ps| - 1].name, qs[|qs| - 1].name)
  {
    var q := qs[|qs| - 1];
    ValuesOfMember(qs, q);
    MemberOfValues(ps, q.name, q.value);
    KeyOrder(q.name, q.name, q.name);
  }

  /** An ordered list is determined by the values under each key. */
  lemma {:induction false} ValuesDetermine(ps: seq<Label>, qs: seq<Label>)
    requires Ordered(ps) && Ordered(qs) && SameValues(ps, qs)
    ensures ps == qs
    decreases |ps|
  {
    hide KeyLess;
    if ps != [] || qs != [] {
      if qs != [] {
        LastBounds(ps, qs);
      }
      if ps != [] {
        LastBounds(qs, ps);
      }
      var m, n := |ps| - 1, |qs| - 1;
      var p, q := ps[m], qs[n];
      KeyOrder(p.name, q.name, "");
      assert p.name == q.name;
      var a, b := ValuesOf(ps[..m], p.name), ValuesOf(qs[..n], p.name);
      assert a + [p.value] == ValuesOf(ps, p.name) == ValuesOf(qs, p.name) == b + [q.value];
      assert (a + [p.value])[|a|] == p.value && (b + [q.value])[|b|] == q.value && |a| == |b|;
      forall name ensures ValuesOf(ps[..m], name) == ValuesOf(qs[..n], name) {
        var c, d := ValuesOf(ps[..m], name), ValuesOf(qs[..n], name);
        assert ValuesOf(ps, name) == ValuesOf(qs, name);
        assert c + [] == c && d + [] == d;
        Cut(c, d, p.value);
      }
      ValuesDetermine(ps[..m], qs[..n]);
      assert ps == ps[..m] + [p] && qs == qs[..n] + [q];
    }
  }

  lemma Cut(a: seq<string>, b: seq<string>, last: string)
    ensures a + [last] == b + [last] ==> a == b
  {
    if a + [last] == b + [last] {
      assert (a + [last])[..|a|] == a && (b + [last])[..|b|] == b;
    }
  }

  // ---- Sorting in place ----

  /** `sort.Slice`, which is library code: one of the ways of sorting. */
  method SortSlice(a: array<Label>, sort: Sorter)
    modifies a
    ensures a[..] == sort(old(a[..]))
  {
    var sorted := sort(a[..]);
    assert multiset(sorted) == multiset(a[..]);
    assert |multiset(sorted)| == |sorted| && |multiset(a[..])| == a.Length;
    forall i | 0 <= i < a.Length {
      a[i] := sorted[i];
    }
  }

  function Zip(keys: seq<string>, values: seq<string>): (ls: seq<Label>)
    requires |keys| <= |values|
    ensures |ls| == |keys|
  {
    seq(|keys|, i requires 0 <= i < |keys| => Label(keys[i], values[i]))
  }

  /** Keys and values move together. */
  method SortLabelset(keys: array<string>, values: array<string>, sort: Sorter)
    requires keys != values && keys.Length <= values.Length
    modifies keys, values
    ensures Zip(keys[..], values[..]) == sort(Zip(old(keys[..]), old(values[..])))
    ensures Arranges(Zip(keys[..], values[..]), multiset(Zip(old(keys[..]), old(values[..]))))
    ensures values[keys.Length..] == old(values[keys.Length..])
    ensures forall i, j :: 0 <= i < j < keys.Length ==>
              && |keys[i]| <= |keys[j]|
              && (|keys[i]| == |keys[j]| && keys[i] != keys[j] ==>
                    exists p :: 0 <= p < |keys[i]| && keys[i][..p] == keys[j][..p] && keys[i][p] < keys[j][p])
  {
    var labelsets := new Label[keys.Length](i reads keys, values requires 0 <= i < keys.Length <= values.Length =>
      Label(keys[i], values[i]));
    ghost var pairs := Zip(keys[..], values[..]);
    assert labelsets[..] == pairs;
    SortSlice(labelsets, sort);
    ghost var sorted := labelsets[..];
    assert Arranges(sorted, multiset(pairs));
    var i := 0;
    while i < labelsets.Length
      invariant 0 <= i <= labelsets.Length
      invariant labelsets[..] == sorted
      invariant forall j :: 0 <= j < i ==> Label(keys[j], values[j]) == labelsets[j]
      invariant values[keys.Length..] == old(values[keys.Length..])
    {
      keys[i] := labelsets[i].name;
      values[i] := labelsets[i].value;
      i := i + 1;
    }
    assert Zip(keys[..], values[..]) == sorted;
    forall i, j | 0 <= i < j < keys.Length
      ensures |keys[i]| <= |keys[j]|
      ensures |keys[i]| == |keys[j]| && keys[i] != keys[j] ==>
                exists p :: 0 <= p < |keys[i]| && keys[i][..p] == keys[j][..p] && keys[i][p] < keys[j][p]
    {
      hide KeyLess;
      assert !KeyLess(sorted[j].name, sorted[i].name);
      KeyOrder(keys[i], keys[j], "");
      ShorterFirst(keys[i], keys[j]);
    }
  }

  // ---- Writing one line ----

  datatype Outcome = Written | LengthMismatch | NotANumber

  /** What was appended to `before` reads as the labels in braces, a blank, the value
      and a newline. */
  ghost predicate ReadsAs(before: string, after: string, labels: seq<Label>, token: string) {
    before <= after &&
    var line := after[|before|..];
    && line != "" && line[0] == '{'
    && ScanLabels(line[1..]) == Some((labels, " " + token + "\n"))
  }

  /** `number` is `strconv.ParseFloat` followed by `%f`. When it fails, the label
      block has already been written. */
  method WriteMetricTo(
    writer: StringBuilder, g: string, v: string, k: string, resolvedValue: string,
    keys: array<string>, values: array<string>, sort: Sorter, number: string -> Option<string>)
    returns (r: Outcome)
    requires keys != values
    modifies writer, keys, values
    ensures keys.Length != values.Length ==>
              r.LengthMismatch? && writer.contents == old(writer.contents) &&
              keys[..] == old(keys[..]) && values[..] == old(values[..])
    ensures keys.Length == values.Length ==>
              && Zip(keys[..], values[..]) == sort(Zip(old(keys[..]), old(values[..])))
              && Arranges(Zip(keys[..], values[..]), multiset(Zip(old(keys[..]), old(values[..]))))
              && var start := old(writer.contents) + RenderBody(WithIdentity(Zip(keys[..], values[..]), g, v, k));
                 match number(resolvedValue)
                 case None => r.NotANumber? && writer.contents == start
                 case Some(token) => r.Written? && writer.contents == start + token + "\n"
    ensures r.Written? && WordLabels(Zip(keys[..], values[..])) ==>
              && number(resolvedValue).Some?
              && ReadsAs(old(writer.contents), writer.contents,
                         Zip(keys[..], values[..]) + [Label("group", g), Label("version", v), Label("kind", k)],
                         number(resolvedValue).value)
  {
    if keys.Length != values.Length {
      return LengthMismatch;
    }
    SortLabelset(keys, values, sort);
    var allKeys := keys[..] + ["group", "version", "kind"];
    var allValues := values[..] + [g, v, k];
    assert Zip(allKeys, allValues) == WithIdentity(Zip(keys[..], values[..]), g, v, k);
    WriteBody(writer, allKeys, allValues);
    match number(resolvedValue) {
      case None => return NotANumber;
      case Some(token) =>
        ghost var body := RenderBody(WithIdentity(Zip(keys[..], values[..]), g, v, k));
        writer.WriteString(token);
        writer.WriteString("\n");
        assert writer.contents == old(writer.contents) + (body + (token + "\n"));
        if WordLabels(Zip(keys[..], values[..])) {
          BodyReads(Zip(keys[..], values[..]), g, v, k, token + "\n");
          assert " " + (token + "\n") == " " + token + "\n";
        }
        return Written;
    }
  }

  method WriteBody(writer: StringBuilder, keys: seq<string>, values: seq<string>)
    requires |keys| == |values| > 0
    modifies writer
    ensures writer.contents == old(writer.contents) + RenderBody(Zip(keys, values))
  {
    hide RenderLabel;
    ghost var all := Zip(keys, values);
    var separator := "{";
    var i := 0;
    assert all[0..] == all;
    while i < |keys|
      invariant 0 <= i <= |keys|
      invariant writer.contents + RenderLabels(all[i..], separator) ==
                old(writer.contents) + RenderLabels(all, "{")
    {
      ghost var before := writer.contents;
      writer.WriteString(separator);
      WriteLabel(writer, keys[i], values[i]);
      assert all[i..][0] == Label(keys[i], values[i]) && all[i..][1..] == all[i + 1..];
      ghost var l, rest := RenderLabel(all[i]), RenderLabels(all[i + 1..], ",");
      assert before + (separator + l + rest) == writer.contents + rest;
      separator := ",";
      i := i + 1;
    }
    assert all[i..] == [] && writer.contents == old(writer.contents) + RenderLabels(all, "{");
    writer.WriteString("}");
    writer.WriteString(" ");
    assert "}" + " " == "} ";
  }

  method WriteLabel(writer: StringBuilder, key: string, value: string)
    modifies writer
    ensures writer.contents == old(writer.contents) + RenderLabel(Label(key, value))
  {
    writer.WriteString(key);
    writer.WriteString("=\"");
    writer.WriteString(Escape(value));
    writer.WriteString("\"");
  }
}
