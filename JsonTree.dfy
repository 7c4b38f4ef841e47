/** An immutable document tree (the shape of a frozen YAML/JSON manifest) and the
    path-based rewriting used on it: `Transform(doc, rules)` applies each
    (path, replacement) rule in order to the document produced by the previous one. */
module JsonTree {

  import opened Wrappers

  /** What can abort a rewrite. Any failure aborts the whole call: no partial document. */
  datatype Failure =
    | PathError        // a path segment does not fit the node it meets
    | TypeMismatch     // a replacement function met a value of the wrong kind
    | ImageParseError  // an image reference is not `owner/name` or `registry/owner/name`
    | MissingKey       // a required dictionary entry is absent

  datatype Result<T> = Ok(value: T) | Err(error: Failure)

  datatype Json =
    | Null
    | Int(n: int)
    | Str(s: string)
    | List(items: seq<Json>)
    | Object(fields: map<string, Json>)

  /** The node that stands in for a missing child: an empty mapping. */
  const Empty: Json := Object(map[])

  /** One step of a path: a mapping key, a list index, every child (`ny`),
      or the list indices a predicate picks. */
  datatype Seg =
    | Key(name: string)
    | At(index: int)
    | Any
    | Where(pick: int -> Result<bool>)

  datatype Replacement = Value(v: Json) | Apply(f: Json -> Result<Json>)

  datatype Rule = Rule(path: seq<Seg>, with: Replacement)

  function Replace(r: Replacement, node: Json): Result<Json>
  {
    match r
    case Value(v) => Ok(v)
    case Apply(f) => f(node)
  }

  function Child(m: map<string, Json>, k: string): Json
  {
    if k in m then m[k] else Empty
  }

  /** Rewrites every node `path` reaches in `doc` with `r`. */
  function Update(doc: Json, path: seq<Seg>, r: Replacement): Result<Json>
    decreases |path|, 1, 0
  {
    if path == [] then Replace(r, doc)
    else
      var rest := path[1..];
      match doc
      case Object(m) =>
        (match path[0]
         case Key(k) =>
           var c := Update(Child(m, k), rest, r);
           if c.Err? then c else Ok(Object(m[k := c.value]))
         case Any => UpdateFields(m, rest, r)
         case _ => Err(PathError))
      case List(xs) =>
        (match path[0]
         case At(i) =>
           var j := if i < 0 then i + |xs| else i;
           if 0 <= j < |xs| then
             var c := Update(xs[j], rest, r);
             if c.Err? then c else Ok(List(xs[j := c.value]))
           else
             var c := Update(Empty, rest, r);
             if c.Err? then c
             else if j == |xs| then Ok(List(xs + [c.value]))
             else Err(PathError)
         case Any =>
           var c := UpdateItems(xs, seq(|xs|, _ => true), rest, r);
           if c.Err? then Err(c.error) else Ok(List(c.value))
         case Where(p) =>
           var sel := Select(p, |xs|);
           if sel.Err? then Err(sel.error)
           else
             var c := UpdateItems(xs, sel.value, rest, r);
             if c.Err? then Err(c.error) else Ok(List(c.value))
         case Key(_) => Err(PathError))
      case _ => Err(PathError)
  }

  /** Rewrites, in list order, the items whose flag in `sel` is set. */
  function UpdateItems(xs: seq<Json>, sel: seq<bool>, rest: seq<Seg>, r: Replacement): Result<seq<Json>>
    requires |sel| == |xs|
    decreases |rest| + 1, 0, |xs|
  {
    if xs == [] then Ok([])
    else
      var h := if sel[0] then Update(xs[0], rest, r) else Ok(xs[0]);
      if h.Err? then Err(h.error)
      else
        var t := UpdateItems(xs[1..], sel[1..], rest, r);
        if t.Err? then t else Ok([h.value] + t.value)
  }

  /** Rewrites every value of a mapping. */
  function UpdateFields(m: map<string, Json>, rest: seq<Seg>, r: Replacement): Result<Json>
    decreases |rest| + 1, 0, 0
  {
    var res := map k | k in m :: Update(m[k], rest, r);
    if forall k :: k in res ==> res[k].Ok? then
      Ok(Object(map k | k in res :: res[k].value))
    else
      var errs := set k | k in res && res[k].Err? :: res[k].error;
      Err(if PathError in errs then PathError
          else if TypeMismatch in errs then TypeMismatch
          else if ImageParseError in errs then ImageParseError
          else MissingKey)
  }

  /** Evaluates the predicate on the indices 0 .. n-1 in order; the first failure aborts. */
  function Select(p: int -> Result<bool>, n: nat): (r: Result<seq<bool>>)
    ensures r.Ok? ==> |r.value| == n
  {
    if n == 0 then Ok([])
    else
      var front := Select(p, n - 1);
      if front.Err? then front
      else
        var last := p(n - 1);
        if last.Err? then Err(last.error) else Ok(front.value + [last.value])
  }

  /** Applies the rules one after the other. */
  function Transform(doc: Json, rules: seq<Rule>): Result<Json>
    decreases |rules|
  {
    if rules == [] then Ok(doc)
    else
      var d := Update(doc, rules[0].path, rules[0].with);
      if d.Err? then d else Transform(d.value, rules[1..])
  }

  /** Looks a node up along a path of keys and (non-negative) indices. */
  function Get(doc: Json, path: seq<Seg>): Option<Json>
  {
    if path == [] then Some(doc)
    else match path[0]
      case Key(k) => if doc.Object? && k in doc.fields then Get(doc.fields[k], path[1..]) else None
      case At(i) => if doc.List? && 0 <= i < |doc.items| then Get(doc.items[i], path[1..]) else None
      case _ => None
  }

  /** Looking below a key is looking into the value it holds. */
  lemma GetKey(d: Json, k: string, p: seq<Seg>)
    requires d.Object? && k in d.fields
    ensures Get(d, [Key(k)] + p) == Get(d.fields[k], p)
  {
    assert ([Key(k)] + p)[1..] == p;
  }

  // ---------------------------------------------------------------------------
  // Addresses: paths made only of keys and non-negative indices.

  predicate IsAddress(p: seq<Seg>)
  {
    forall i | 0 <= i < |p| :: p[i].Key? || (p[i].At? && p[i].index >= 0)
  }

  predicate SameStep(s: Seg, t: Seg)
  {
    (s.Key? && t.Key? && s.name == t.name) || (s.At? && t.At? && s.index == t.index)
  }

  /** `p` starts with the address `a`. */
  predicate HasPrefix(p: seq<Seg>, a: seq<Seg>)
  {
    |a| <= |p| && forall i | 0 <= i < |a| :: SameStep(p[i], a[i])
  }

  /** Setting a value at address `p` of `d` succeeds: every node met on the way is a
      mapping (possibly created empty) or a list the index reaches or appends to. */
  predicate Reaches(d: Json, p: seq<Seg>)
    decreases |p|
  {
    if p == [] then true
    else match p[0]
      case Key(k) => d.Object? && Reaches(Child(d.fields, k), p[1..])
      case At(i) =>
        d.List? && 0 <= i <= |d.items| &&
        Reaches(if i < |d.items| then d.items[i] else Empty, p[1..])
      case _ => false
  }

  /** The node found at `a`, or the empty mapping a rewrite would create there. */
  function Base(d: Json, a: seq<Seg>): Json
  {
    match Get(d, a)
    case Some(x) => x
    case None => Empty
  }

  /** Stores the outcome of rewriting the subtree at `a` back into `d`. */
  function Put(d: Json, a: seq<Seg>, res: Result<Json>): Result<Json>
  {
    if res.Err? then res else Update(d, a, Value(res.value))
  }

  /** The rules with their first `n` path segments removed. */
  function Descend(rules: seq<Rule>, n: nat): (s: seq<Rule>)
    ensures |s| == |rules|
  {
    seq(|rules|, i requires 0 <= i < |rules| =>
      Rule(if n <= |rules[i].path| then rules[i].path[n..] else [], rules[i].with))
  }

  lemma AddressTail(a: seq<Seg>)
    requires IsAddress(a) && a != []
    ensures IsAddress(a[1..])
  {
    forall i | 0 <= i < |a[1..]| ensures a[1..][i].Key? || (a[1..][i].At? && a[1..][i].index >= 0) {
      assert a[1..][i] == a[i + 1];
    }
  }

  // ---------------------------------------------------------------------------
  // Laws of the engine.

  /** Setting a literal at a reachable address stores it there and keeps the address reachable. */
  lemma {:induction false} SetGet(d: Json, a: seq<Seg>, y: Json)
    requires IsAddress(a) && Reaches(d, a)
    ensures Update(d, a, Value(y)).Ok?
    ensures Get(Update(d, a, Value(y)).value, a) == Some(y)
    ensures Reaches(Update(d, a, Value(y)).value, a)
    decreases |a|
  {
    if a != [] {
      AddressTail(a);
      match a[0]
      case Key(k) =>
        SetGet(Child(d.fields, k), a[1..], y);
      case At(i) =>
        SetGet(if i < |d.items| then d.items[i] else Empty, a[1..], y);
    }
  }

  /** Setting the same address twice keeps only the second value. */
  lemma {:induction false} SetSet(d: Json, a: seq<Seg>, y1: Json, y2: Json)
    requires IsAddress(a) && Reaches(d, a)
    ensures var d1 := Update(d, a, Value(y1)); d1.Ok? && Update(d1.value, a, Value(y2)) == Update(d, a, Value(y2))
    decreases |a|
  {
    if a != [] {
      AddressTail(a);
      match a[0]
      case Key(k) =>
        var x := Child(d.fields, k);
        SetSet(x, a[1..], y1, y2);
        SetGet(x, a[1..], y1);
        SetGet(x, a[1..], y2);
        var c1 := Update(x, a[1..], Value(y1)).value;
        var c2 := Update(x, a[1..], Value(y2)).value;
        assert Child(d.fields[k := c1], k) == c1;
        assert Update(Object(d.fields[k := c1]), a, Value(y2)) == Ok(Object(d.fields[k := c1][k := c2]));
        assert d.fields[k := c1][k := c2] == d.fields[k := c2];
      case At(i) =>
        var x := if i < |d.items| then d.items[i] else Empty;
        SetSet(x, a[1..], y1, y2);
        SetGet(x, a[1..], y1);
        SetGet(x, a[1..], y2);
        if i == |d.items| {
          var c1 := Update(x, a[1..], Value(y1)).value;
          var c2 := Update(x, a[1..], Value(y2)).value;
          assert Update(d, a, Value(y1)) == Ok(List(d.items + [c1]));
          assert Update(d, a, Value(y2)) == Ok(List(d.items + [c2]));
          assert (d.items + [c1])[i] == c1;
          assert Update(List(d.items + [c1]), a, Value(y2)) == Ok(List((d.items + [c1])[i := c2]));
          assert (d.items + [c1])[i := c2] == d.items + [c2];
        } else {
          var c1 := Update(x, a[1..], Value(y1)).value;
          var c2 := Update(x, a[1..], Value(y2)).value;
          assert Update(List(d.items[i := c1]), a, Value(y2)) == Ok(List(d.items[i := c1][i := c2]));
          assert d.items[i := c1][i := c2] == d.items[i := c2];
        }
    }
  }

  lemma BaseStep(d: Json, a: seq<Seg>)
    requires IsAddress(a) && a != [] && Reaches(d, a)
    ensures a[0].Key? ==> Base(d, a) == Base(Child(d.fields, a[0].name), a[1..])
    ensures a[0].At? ==>
      Base(d, a) == Base(if a[0].index < |d.items| then d.items[a[0].index] else Empty, a[1..])
  {
    var rest := a[1..];
    assert rest == [] || Get(Empty, rest) == None;
  }

  /** Rewriting below an address is rewriting the subtree found there and storing it back. */
  lemma {:induction false} UpdateUnder(d: Json, a: seq<Seg>, p: seq<Seg>, r: Replacement)
    requires IsAddress(a) && Reaches(d, a) && HasPrefix(p, a)
    ensures Update(d, p, r) == Put(d, a, Update(Base(d, a), p[|a|..], r))
    decreases |a|
  {
    if a == [] {
      assert p[|a|..] == p;
    } else {
      AddressTail(a);
      BaseStep(d, a);
      assert HasPrefix(p[1..], a[1..]) by {
        forall i | 0 <= i < |a[1..]| ensures SameStep(p[1..][i], a[1..][i]) {
          assert p[1..][i] == p[i + 1] && a[1..][i] == a[i + 1];
        }
      }
      assert p[1..][|a[1..]|..] == p[|a|..];
      assert SameStep(p[0], a[0]);
      match a[0]
      case Key(k) =>
        UpdateUnder(Child(d.fields, k), a[1..], p[1..], r);
      case At(i) =>
        UpdateUnder(if i < |d.items| then d.items[i] else Empty, a[1..], p[1..], r);
    }
  }

  /** A batch of rules that all start with the address `a` rewrites the subtree at `a`
      and stores the outcome back once. */
  lemma {:induction false} TransformUnder(d: Json, a: seq<Seg>, rules: seq<Rule>)
    requires IsAddress(a) && Reaches(d, a) && rules != []
    requires forall i | 0 <= i < |rules| :: HasPrefix(rules[i].path, a)
    ensures Transform(d, rules) == Put(d, a, Transform(Base(d, a), Descend(rules, |a|)))
    decreases |rules|
  {
    var s := Descend(rules, |a|);
    UpdateUnder(d, a, rules[0].path, rules[0].with);
    var c := Update(Base(d, a), s[0].path, s[0].with);
    if c.Ok? {
      var y0 := c.value;
      SetGet(d, a, y0);
      var d1 := Update(d, a, Value(y0)).value;
      assert Base(d1, a) == y0;
      if |rules| > 1 {
        TransformUnder(d1, a, rules[1..]);
        assert Descend(rules[1..], |a|) == s[1..];
        var t := Transform(y0, s[1..]);
        if t.Ok? {
          SetSet(d, a, y0, t.value);
        }
      }
    }
  }

  /** The rules with the address `a` put in front of each path. */
  function Under(a: seq<Seg>, rules: seq<Rule>): (r: seq<Rule>)
    ensures |r| == |rules|
    ensures forall i | 0 <= i < |rules| :: r[i] == Rule(a + rules[i].path, rules[i].with)
  {
    if rules == [] then [] else [Rule(a + rules[0].path, rules[0].with)] + Under(a, rules[1..])
  }

  /** Rewriting below the address `a` is rewriting the subtree found there (or a new empty
      mapping) and storing the outcome back. */
  lemma TransformBelow(d: Json, a: seq<Seg>, rules: seq<Rule>)
    requires IsAddress(a) && Reaches(d, a) && rules != []
    ensures Transform(d, Under(a, rules)) == Put(d, a, Transform(Base(d, a), rules))
  {
    var u := Under(a, rules);
    forall i | 0 <= i < |u| ensures HasPrefix(u[i].path, a) {
      assert u[i].path == a + rules[i].path;
      forall j | 0 <= j < |a| ensures SameStep(u[i].path[j], a[j]) {
        assert u[i].path[j] == a[j];
      }
    }
    TransformUnder(d, a, u);
    var s := Descend(u, |a|);
    forall i | 0 <= i < |u| ensures s[i] == rules[i] {
      assert (a + rules[i].path)[|a|..] == rules[i].path;
    }
    assert s == rules;
  }

  /** A batch below the key `k` of a mapping rewrites the value under `k` (or a new empty
      mapping) and stores the outcome there. */
  lemma TransformKey(m: map<string, Json>, k: string, rules: seq<Rule>)
    requires rules != []
    ensures Transform(Object(m), Under([Key(k)], rules)) ==
      (var t := Transform(Child(m, k), rules); if t.Err? then t else Ok(Object(m[k := t.value])))
  {
    var a := [Key(k)];
    assert Reaches(Object(m), a);
    TransformBelow(Object(m), a, rules);
    assert a[1..] == [];
    assert Get(Object(m), a) == if k in m then Some(m[k]) else None;
    assert Base(Object(m), a) == Child(m, k);
    var t := Transform(Child(m, k), rules);
    if t.Ok? {
      assert Update(Object(m), a, Value(t.value)) == Ok(Object(m[k := t.value]));
    }
  }

  /** The successful case of `TransformKey`. */
  lemma KeyBatch(m: map<string, Json>, k: string, rules: seq<Rule>, y: Json)
    requires rules != [] && Transform(Child(m, k), rules) == Ok(y)
    ensures Transform(Object(m), Under([Key(k)], rules)) == Ok(Object(m[k := y]))
  {
    TransformKey(m, k, rules);
  }

  /** Rewriting below item `i` of a list rewrites that item alone. */
  lemma UpdateAt(xs: seq<Json>, i: nat, rest: seq<Seg>, r: Replacement, y: Json)
    requires i < |xs| && Update(xs[i], rest, r) == Ok(y)
    ensures Update(List(xs), [At(i)] + rest, r) == Ok(List(xs[i := y]))
  {
    assert ([At(i)] + rest)[1..] == rest;
  }

  /** A batch whose first rule succeeds goes on with the rest from that rule's outcome. */
  lemma TransformFirst(d: Json, rules: seq<Rule>, d1: Json)
    requires rules != [] && Update(d, rules[0].path, rules[0].with) == Ok(d1)
    ensures Transform(d, rules) == Transform(d1, rules[1..])
  {
  }

  /** A batch whose first rule rewrites below item `i` of a list goes on from the list with
      that item rewritten. */
  lemma TransformAt(xs: seq<Json>, i: nat, rest: seq<Seg>, w: Replacement, y: Json, rules: seq<Rule>)
    requires i < |xs| && Update(xs[i], rest, w) == Ok(y)
    requires rules != [] && rules[0] == Rule([At(i)] + rest, w)
    ensures Transform(List(xs), rules) == Transform(List(xs[i := y]), rules[1..])
  {
    UpdateAt(xs, i, rest, w, y);
  }

  lemma EmptyFields(rest: seq<Seg>, r: Replacement)
    ensures UpdateFields(map[], rest, r) == Ok(Empty)
  {
    var u := UpdateFields(map[], rest, r);
    assert u.Ok?;
    assert u.value.fields.Keys == {};
  }

  /** Rewriting every child of a missing node creates it empty. */
  lemma AnyOnEmpty(rest: seq<Seg>, r: Replacement)
    ensures Update(Empty, [Any] + rest, r) == Ok(Empty)
  {
    var p := [Any] + rest;
    assert p[0] == Any && p[1..] == rest;
    EmptyFields(rest, r);
  }

  /** A batch of one rule is that rule's rewrite. */
  lemma TransformOne(d: Json, rule: Rule)
    ensures Transform(d, [rule]) == Update(d, rule.path, rule.with)
  {
    assert [rule][1..] == [];
  }

  /** A batch is its two halves one after the other. */
  lemma {:induction false} TransformSplit(d: Json, rules: seq<Rule>, k: nat)
    requires k <= |rules|
    ensures Transform(d, rules) ==
      (var h := Transform(d, rules[..k]); if h.Err? then h else Transform(h.value, rules[k..]))
    decreases k
  {
    if k > 0 {
      var d1 := Update(d, rules[0].path, rules[0].with);
      if d1.Ok? {
        TransformSplit(d1.value, rules[1..], k - 1);
        assert rules[1..][..k - 1] == rules[..k][1..];
        assert rules[1..][k - 1..] == rules[k..];
      }
    } else {
      assert rules[0..] == rules;
    }
  }

  /** A batch made of two batches runs the first, then the second on its outcome. */
  lemma TransformAppend(d: Json, a: seq<Rule>, b: seq<Rule>)
    ensures Transform(d, a + b) ==
      (var h := Transform(d, a); if h.Err? then h else Transform(h.value, b))
  {
    TransformSplit(d, a + b, |a|);
    assert (a + b)[..|a|] == a;
    assert (a + b)[|a|..] == b;
  }

  // ---------------------------------------------------------------------------
  // Batches that set keys below one address.

  /** One rule per (key, value) pair, each setting `prefix` + [key] to its value. */
  function SetRules(prefix: seq<Seg>, kvs: seq<(string, Json)>): (rules: seq<Rule>)
    ensures |rules| == |kvs|
    ensures forall i | 0 <= i < |kvs| :: rules[i] == Rule(prefix + [Key(kvs[i].0)], Value(kvs[i].1))
  {
    if kvs == [] then [] else [Rule(prefix + [Key(kvs[0].0)], Value(kvs[0].1))] + SetRules(prefix, kvs[1..])
  }

  /** The mapping after storing the pairs one after the other. */
  function SetAll(m: map<string, Json>, kvs: seq<(string, Json)>): map<string, Json>
    decreases |kvs|
  {
    if kvs == [] then m else SetAll(m[kvs[0].0 := kvs[0].1], kvs[1..])
  }

  /** Setting keys of a mapping one by one is storing them all. */
  lemma {:induction false} SetKeys(m: map<string, Json>, kvs: seq<(string, Json)>)
    ensures Transform(Object(m), SetRules([], kvs)) == Ok(Object(SetAll(m, kvs)))
    decreases |kvs|
  {
    if kvs != [] {
      var rules := SetRules([], kvs);
      assert rules[0].path == [Key(kvs[0].0)];
      assert rules[1..] == SetRules([], kvs[1..]);
      assert rules[0].path[1..] == [];
      assert Update(Object(m), rules[0].path, rules[0].with) == Ok(Object(m[kvs[0].0 := kvs[0].1]));
      SetKeys(m[kvs[0].0 := kvs[0].1], kvs[1..]);
    }
  }

  /** Setting keys below the address `a` stores them all in the mapping found there
      (or in a new one). */
  lemma SetUnder(d: Json, a: seq<Seg>, kvs: seq<(string, Json)>)
    requires IsAddress(a) && Reaches(d, a) && kvs != [] && Base(d, a).Object?
    ensures Transform(d, SetRules(a, kvs)) == Update(d, a, Value(Object(SetAll(Base(d, a).fields, kvs))))
  {
    var rules := SetRules(a, kvs);
    forall i | 0 <= i < |rules| ensures HasPrefix(rules[i].path, a) {
      assert rules[i].path == a + [Key(kvs[i].0)];
    }
    TransformUnder(d, a, rules);
    var stripped := Descend(rules, |a|);
    forall i | 0 <= i < |kvs| ensures stripped[i] == SetRules([], kvs)[i] {
      assert (a + [Key(kvs[i].0)])[|a|..] == [Key(kvs[i].0)];
    }
    assert stripped == SetRules([], kvs);
    SetKeys(Base(d, a).fields, kvs);
  }

  // ---------------------------------------------------------------------------
  // Selections: what a predicate over list indices picks, and what is rewritten.

  /** The selection succeeds exactly when the predicate does on every index, and then
      flags each index by the predicate's answer. */
  lemma {:induction false} SelectSpec(p: int -> Result<bool>, n: nat)
    ensures Select(p, n).Ok? <==> forall i | 0 <= i < n :: p(i).Ok?
    ensures Select(p, n).Ok? ==> forall i | 0 <= i < n :: Select(p, n).value[i] == p(i).value
    decreases n
  {
    if n > 0 {
      SelectSpec(p, n - 1);
    }
  }

  /** Rewriting the selected items succeeds exactly when it succeeds on each selected item;
      then every selected item is rewritten and every other one is kept. */
  lemma {:induction false} UpdateItemsSpec(xs: seq<Json>, sel: seq<bool>, rest: seq<Seg>, r: Replacement)
    requires |sel| == |xs|
    ensures var u := UpdateItems(xs, sel, rest, r);
      u.Ok? <==> forall i | 0 <= i < |xs| :: sel[i] ==> Update(xs[i], rest, r).Ok?
    ensures var u := UpdateItems(xs, sel, rest, r);
      u.Ok? ==> (|u.value| == |xs| &&
        forall i | 0 <= i < |xs| :: u.value[i] == if sel[i] then Update(xs[i], rest, r).value else xs[i])
    decreases |xs|
  {
    if xs != [] {
      UpdateItemsSpec(xs[1..], sel[1..], rest, r);
      var u := UpdateItems(xs, sel, rest, r);
      forall i | 1 <= i < |xs| ensures xs[1..][i - 1] == xs[i] && sel[1..][i - 1] == sel[i] { }
      if u.Ok? {
        var t := UpdateItems(xs[1..], sel[1..], rest, r);
        assert u.value[1..] == t.value;
        forall i | 1 <= i < |xs| ensures u.value[i] == t.value[i - 1] { }
      }
    }
  }

  /** A rule whose path starts with a predicate over the indices of a list: the list is
      rewritten item by item, at the indices the predicate picks. */
  lemma WhereSpec(xs: seq<Json>, p: int -> Result<bool>, rest: seq<Seg>, r: Replacement)
    ensures var u := Update(List(xs), [Where(p)] + rest, r);
      u.Ok? <==> (forall i | 0 <= i < |xs| :: p(i).Ok?) &&
                 (forall i | 0 <= i < |xs| :: p(i).value ==> Update(xs[i], rest, r).Ok?)
    ensures var u := Update(List(xs), [Where(p)] + rest, r);
      u.Ok? ==> (u.value.List? && |u.value.items| == |xs| &&
        forall i | 0 <= i < |xs| :: u.value.items[i] == if p(i).value then Update(xs[i], rest, r).value else xs[i])
  {
    var path := [Where(p)] + rest;
    assert path[0] == Where(p) && path[1..] == rest;
    SelectSpec(p, |xs|);
    var sel := Select(p, |xs|);
    if sel.Ok? {
      UpdateItemsSpec(xs, sel.value, rest, r);
    }
  }

  /** A rule whose path starts with `ny` over a list: every item is rewritten. */
  lemma AnySpec(xs: seq<Json>, rest: seq<Seg>, r: Replacement)
    ensures var u := Update(List(xs), [Any] + rest, r);
      u.Ok? <==> forall i | 0 <= i < |xs| :: Update(xs[i], rest, r).Ok?
    ensures var u := Update(List(xs), [Any] + rest, r);
      u.Ok? ==> (u.value.List? && |u.value.items| == |xs| &&
        forall i | 0 <= i < |xs| :: u.value.items[i] == Update(xs[i], rest, r).value)
  {
    var path := [Any] + rest;
    assert path[0] == Any && path[1..] == rest;
    var sel := seq(|xs|, _ => true);
    UpdateItemsSpec(xs, sel, rest, r);
  }

  /** A batch of two rules is the second applied to the outcome of the first. */
  lemma TransformTwo(d: Json, r1: Rule, r2: Rule)
    ensures Transform(d, [r1, r2]) ==
      (var t := Update(d, r1.path, r1.with); if t.Err? then t else Update(t.value, r2.path, r2.with))
  {
    assert [r1, r2][1..] == [r2];
    var t := Update(d, r1.path, r1.with);
    if t.Ok? {
      TransformOne(t.value, r2);
    }
  }

  /** Two rules that pick the same list indices with a predicate rewrite each picked item
      with both rules in turn and keep every other item. The predicate is fixed before the
      batch, so the second rule picks what the first did. */
  lemma WhereTwo(xs: seq<Json>, p: int -> Result<bool>, q1: seq<Seg>, w1: Replacement, q2: seq<Seg>, w2: Replacement)
    ensures var t := Transform(List(xs), [Rule([Where(p)] + q1, w1), Rule([Where(p)] + q2, w2)]);
      t.Ok? <==> (forall i | 0 <= i < |xs| :: p(i).Ok?) &&
                 (forall i | 0 <= i < |xs| :: p(i).value ==> Transform(xs[i], [Rule(q1, w1), Rule(q2, w2)]).Ok?)
    ensures var t := Transform(List(xs), [Rule([Where(p)] + q1, w1), Rule([Where(p)] + q2, w2)]);
      t.Ok? ==> (t.value.List? && |t.value.items| == |xs| &&
        forall i | 0 <= i < |xs| ::
          t.value.items[i] == if p(i).value then Transform(xs[i], [Rule(q1, w1), Rule(q2, w2)]).value else xs[i])
  {
    TransformTwo(List(xs), Rule([Where(p)] + q1, w1), Rule([Where(p)] + q2, w2));
    forall i | 0 <= i < |xs| {
      TransformTwo(xs[i], Rule(q1, w1), Rule(q2, w2));
    }
    WhereSpec(xs, p, q1, w1);
    var u := Update(List(xs), [Where(p)] + q1, w1);
    if u.Ok? {
      WhereSpec(u.value.items, p, q2, w2);
      assert u.value == List(u.value.items);
    }
  }

  /** Two rules over every item of a list rewrite each item with both rules in turn. */
  lemma AnyTwo(xs: seq<Json>, q1: seq<Seg>, w1: Replacement, q2: seq<Seg>, w2: Replacement)
    ensures var t := Transform(List(xs), [Rule([Any] + q1, w1), Rule([Any] + q2, w2)]);
      t.Ok? <==> forall i | 0 <= i < |xs| :: Transform(xs[i], [Rule(q1, w1), Rule(q2, w2)]).Ok?
    ensures var t := Transform(List(xs), [Rule([Any] + q1, w1), Rule([Any] + q2, w2)]);
      t.Ok? ==> (t.value.List? && |t.value.items| == |xs| &&
        forall i | 0 <= i < |xs| :: t.value.items[i] == Transform(xs[i], [Rule(q1, w1), Rule(q2, w2)]).value)
  {
    TransformTwo(List(xs), Rule([Any] + q1, w1), Rule([Any] + q2, w2));
    forall i | 0 <= i < |xs| {
      TransformTwo(xs[i], Rule(q1, w1), Rule(q2, w2));
    }
    AnySpec(xs, q1, w1);
    var u := Update(List(xs), [Any] + q1, w1);
    if u.Ok? {
      AnySpec(u.value.items, q2, w2);
      assert u.value == List(u.value.items);
    }
  }

  /** A node found along an address can be rewritten in place. */
  lemma {:induction false} GetReaches(d: Json, a: seq<Seg>)
    requires IsAddress(a) && Get(d, a).Some?
    ensures Reaches(d, a) && Base(d, a) == Get(d, a).value
    decreases |a|
  {
    if a != [] {
      AddressTail(a);
      match a[0]
      case Key(k) =>
        GetReaches(d.fields[k], a[1..]);
      case At(i) =>
        GetReaches(d.items[i], a[1..]);
    }
  }
}
