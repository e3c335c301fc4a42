/** The access-logging environment of `pisek/config/base_env.py`.

    An environment has declared fields (whose values may be nested
    environments, dictionaries or plain values) and computed fields. It
    records the names of the public fields read from it while its logging
    flag is on, can be locked against forking, and can list the dotted paths
    of everything read from it and from the environments nested in it.

    The root environment is a `BaseEnv` object whose flags and access set
    change in place; the environments nested in it are modelled as values
    (`Env`), since a deep copy never shares them. */
module BaseEnvModel {
  import opened Common
  import opened Text

  /** A field value: plain data, a dictionary, or a nested environment. */
  datatype Value = Leaf(text: string) | Dict(entries: map<string, Value>) | Sub(env: Env)

  datatype Field = Field(name: string, value: Value)

  /** One environment: its declared fields in declaration order, its
      computed fields, and the bookkeeping of `BaseEnv`. */
  datatype Env = Env(
    fields: seq<Field>,
    computed: map<string, Value>,
    accessed: set<string>,
    logging: bool,
    locked: bool)

  datatype Error = RuntimeError | AttributeError | KeyError | TypeError | ValueError

  /** Position of the field called `name`, if there is one. */
  function FieldIndex(fields: seq<Field>, name: string): (r: Option<nat>)
    ensures r.Some? ==> r.value < |fields| && fields[r.value].name == name
    ensures r.None? ==> forall i :: 0 <= i < |fields| ==> fields[i].name != name
  {
    if fields == [] then None
    else if fields[0].name == name then Some(0)
    else match FieldIndex(fields[1..], name)
      case None => None
      case Some(i) => Some(i + 1)
  }

  predicate IsField(e: Env, name: string)
  {
    FieldIndex(e.fields, name).Some?
  }

  /** Reading `item` is logged: a public name other than the two pydantic
      tables, naming a declared or computed field, while logging is on. */
  predicate Loggable(e: Env, item: string)
  {
    && !StartsWith(item, "_")
    && item != "model_fields" && item != "model_computed_fields"
    && e.logging
    && (IsField(e, item) || item in e.computed)
  }

  /** The environment after `item` is read from it (`__getattribute__`). */
  function Read(e: Env, item: string): Env
  {
    if Loggable(e, item) then e.(accessed := e.accessed + {item}) else e
  }

  /** The value read for `item`: a declared field, else a computed one. */
  function AttrValue(e: Env, item: string): Option<Value>
  {
    match FieldIndex(e.fields, item)
    case Some(i) => Some(e.fields[i].value)
    case None => if item in e.computed then Some(e.computed[item]) else None
  }

  /** Reading logs exactly the loggable names and changes nothing else. */
  lemma ReadLogs(e: Env, item: string)
    ensures Read(e, item).accessed == e.accessed + (if Loggable(e, item) then {item} else {})
    ensures Read(e, item).(accessed := e.accessed) == e
    ensures StartsWith(item, "_") ==> Read(e, item) == e
    ensures !e.logging ==> Read(e, item) == e
  {
  }

  // ---------------------------------------------------------------------------
  // The recursive walk: `_recursive_call`, `_clear_accesses`, `lock`

  /** The function a walk applies to each environment. */
  datatype NodeOp = ClearNode | LockNode

  function ApplyOp(op: NodeOp, e: Env): Env
  {
    match op
    case ClearNode => e.(accessed := {})
    case LockNode => e.(locked := true)
  }

  /** `_recursive_call(function)(e)`: with logging off, every field holding
      a nested environment is walked first; then logging is turned back on
      and the function is applied to `e`. The fields are read with logging
      off, so the walk records nothing. Dictionary values are not entered. */
  function RecursiveCall(op: NodeOp, e: Env): Env
    decreases e, 1
  {
    ApplyOp(op, e.(fields := WalkFields(op, e, 0), logging := true))
  }

  /** The fields of `e` from position `i` on, each nested environment
      walked. */
  function WalkFields(op: NodeOp, e: Env, i: nat): (r: seq<Field>)
    requires i <= |e.fields|
    ensures |r| == |e.fields| - i
    decreases e, 0, |e.fields| - i
  {
    if i == |e.fields| then []
    else
      var f := e.fields[i];
      var g := if f.value.Sub? then Field(f.name, Sub(RecursiveCall(op, f.value.env))) else f;
      [g] + WalkFields(op, e, i + 1)
  }

  /** Every environment in the tree satisfies `p`. */
  predicate Everywhere(e: Env, p: Env -> bool)
    decreases e
  {
    p(e) && forall i :: 0 <= i < |e.fields| && e.fields[i].value.Sub? ==>
      Everywhere(e.fields[i].value.env, p)
  }

  /** `a` and `b` hold the same data: the same fields with the same values,
      nested environments compared the same way, flags and logs ignored. */
  predicate SameData(a: Env, b: Env)
    decreases a
  {
    && |a.fields| == |b.fields|
    && a.computed == b.computed
    && forall i :: 0 <= i < |a.fields| ==>
      && a.fields[i].name == b.fields[i].name
      && (if a.fields[i].value.Sub? then
            b.fields[i].value.Sub? && SameData(a.fields[i].value.env, b.fields[i].value.env)
          else a.fields[i].value == b.fields[i].value)
  }

  lemma WalkFieldsAt(op: NodeOp, e: Env, i: nat, j: nat)
    requires i <= j < |e.fields|
    ensures WalkFields(op, e, i)[j - i] ==
      (if e.fields[j].value.Sub? then Field(e.fields[j].name, Sub(RecursiveCall(op, e.fields[j].value.env)))
       else e.fields[j])
    decreases j - i
  {
    if i < j {
      WalkFieldsAt(op, e, i + 1, j);
    }
  }

  /** A walk keeps every field and every value; it sets logging on in every
      environment, applies the function to each, and keeps the other
      flags. */
  lemma {:induction false} RecursiveCallShape(op: NodeOp, e: Env)
    ensures var r := RecursiveCall(op, e);
      && SameData(r, e)
      && r.logging
      && r.accessed == (if op == ClearNode then {} else e.accessed)
      && r.locked == (op == LockNode || e.locked)
      && forall i :: 0 <= i < |e.fields| && e.fields[i].value.Sub? ==>
        r.fields[i].value == Sub(RecursiveCall(op, e.fields[i].value.env))
    decreases e
  {
    var r := RecursiveCall(op, e);
    forall i | 0 <= i < |e.fields|
      ensures r.fields[i].name == e.fields[i].name
      ensures e.fields[i].value.Sub? ==> r.fields[i].value == Sub(RecursiveCall(op, e.fields[i].value.env))
      ensures if r.fields[i].value.Sub? then
          e.fields[i].value.Sub? && SameData(r.fields[i].value.env, e.fields[i].value.env)
        else r.fields[i].value == e.fields[i].value
    {
      WalkFieldsAt(op, e, 0, i);
      if e.fields[i].value.Sub? {
        RecursiveCallShape(op, e.fields[i].value.env);
      }
    }
  }

  /** After a walk every environment in the tree has logging on and the
      function applied. */
  lemma {:induction false} RecursiveCallEverywhere(op: NodeOp, e: Env)
    ensures Everywhere(RecursiveCall(op, e), (n: Env) =>
      n.logging && (op == ClearNode ==> n.accessed == {}) && (op == LockNode ==> n.locked))
    decreases e
  {
    var r := RecursiveCall(op, e);
    RecursiveCallShape(op, e);
    forall i | 0 <= i < |r.fields| && r.fields[i].value.Sub?
      ensures Everywhere(r.fields[i].value.env, (n: Env) =>
        n.logging && (op == ClearNode ==> n.accessed == {}) && (op == LockNode ==> n.locked))
    {
      RecursiveCallEverywhere(op, e.fields[i].value.env);
    }
  }

  /** `fork`: refused on a locked environment; otherwise a deep copy whose
      every environment has an empty access log. */
  function Fork(e: Env): (r: Result<Env, Error>)
  {
    if e.locked then Err(RuntimeError) else Ok(RecursiveCall(ClearNode, e))
  }

  /** The fork holds the same data and has no accesses anywhere; earlier
      accesses are not carried over. */
  lemma ForkClears(e: Env)
    ensures Fork(e).Err? <==> e.locked
    ensures Fork(e).Ok? ==> SameData(Fork(e).value, e) && AccessedPaths(Fork(e).value) == {}
    ensures Fork(e).Ok? ==> Everywhere(Fork(e).value, (n: Env) => n.logging && n.accessed == {})
  {
    if !e.locked {
      RecursiveCallShape(ClearNode, e);
      RecursiveCallEverywhere(ClearNode, e);
      EverywhereWeaken(RecursiveCall(ClearNode, e),
        (n: Env) => n.logging && (ClearNode == ClearNode ==> n.accessed == {}) && (ClearNode == LockNode ==> n.locked),
        (n: Env) => n.logging && n.accessed == {});
    }
  }

  lemma {:induction false} EverywhereWeaken(e: Env, p: Env -> bool, q: Env -> bool)
    requires Everywhere(e, p)
    requires forall n :: p(n) ==> q(n)
    ensures Everywhere(e, q)
    decreases e
  {
    forall i | 0 <= i < |e.fields| && e.fields[i].value.Sub?
      ensures Everywhere(e.fields[i].value.env, q)
    {
      EverywhereWeaken(e.fields[i].value.env, p, q);
    }
  }

  /** `lock`: every environment in the tree is locked; data and access logs
      are kept. */
  lemma LockLocks(e: Env)
    ensures Everywhere(RecursiveCall(LockNode, e), (n: Env) => n.locked && n.logging)
    ensures SameData(RecursiveCall(LockNode, e), e)
    ensures RecursiveCall(LockNode, e).accessed == e.accessed
    ensures Fork(RecursiveCall(LockNode, e)) == Err(RuntimeError)
  {
    RecursiveCallShape(LockNode, e);
    RecursiveCallEverywhere(LockNode, e);
    EverywhereWeaken(RecursiveCall(LockNode, e),
      (n: Env) => n.logging && (LockNode == ClearNode ==> n.accessed == {}) && (LockNode == LockNode ==> n.locked),
      (n: Env) => n.locked && n.logging);
  }

  // ---------------------------------------------------------------------------
  // `get_accessed`

  /** `k.p` for every path `p`. */
  function Prefixed(k: string, paths: set<string>): set<string>
  {
    set p | p in paths :: k + "." + p
  }

  /** The paths reported for one accessed name: the nested paths under it
      if the value `getattr` reads for it (a declared field, else a
      computed one) is an environment, else the name itself. */
  function KeyPaths(e: Env, k: string): set<string>
    decreases e, 0
  {
    match FieldIndex(e.fields, k)
    case Some(i) =>
      if e.fields[i].value.Sub? then Prefixed(k, AccessedPaths(e.fields[i].value.env)) else {k}
    case None =>
      if k in e.computed && e.computed[k].Sub? then Prefixed(k, AccessedPaths(e.computed[k].env)) else {k}
  }

  /** `KeyPaths` follows the value `getattr` reads. */
  lemma KeyPathsAttr(e: Env, k: string)
    ensures AttrValue(e, k).Some? && AttrValue(e, k).value.Sub? ==>
              KeyPaths(e, k) == Prefixed(k, AccessedPaths(AttrValue(e, k).value.env))
    ensures !(AttrValue(e, k).Some? && AttrValue(e, k).value.Sub?) ==> KeyPaths(e, k) == {k}
  {
  }

  /** Everything read from `e` and its nested environments, as dotted
      paths. */
  function AccessedPaths(e: Env): set<string>
    decreases e, 1
  {
    set k, p | k in e.accessed && p in KeyPaths(e, k) :: p
  }

  /** Field names are identifiers: no dots. */
  predicate NoDotNames(e: Env)
  {
    forall k :: k in e.accessed ==> '.' !in k
  }

  /** No environment reachable through declared or computed fields has a
      dotted name in its access log. */
  predicate NoDotsBelow(e: Env)
    decreases e
  {
    && NoDotNames(e)
    && (forall i :: 0 <= i < |e.fields| && e.fields[i].value.Sub? ==> NoDotsBelow(e.fields[i].value.env))
    && (forall k :: k in e.computed && e.computed[k].Sub? ==> NoDotsBelow(e.computed[k].env))
  }

  /** The text before the first dot. */
  function Head(s: string): string
  {
    Split(s, '.')[0]
  }

  lemma HeadOfName(k: string, p: string)
    requires '.' !in k
    ensures Head(k) == k
    ensures Head(k + "." + p) == k
  {
    var s := k + "." + p;
    forall j | 0 <= j < |k| ensures s[j] != '.' {
      assert s[j] == k[j];
    }
    assert s[|k|] == '.';
    var i := IndexOf(s, '.');
    assert i == |k|;
    assert s[..i] == k;
  }

  /** Every path reported for `k` starts with `k`. */
  lemma KeyPathsHead(e: Env, k: string)
    requires '.' !in k
    ensures forall p :: p in KeyPaths(e, k) ==> Head(p) == k
  {
    forall p | p in KeyPaths(e, k) ensures Head(p) == k {
      HeadOfName(k, p);
      match FieldIndex(e.fields, k) {
        case Some(i) =>
          if e.fields[i].value.Sub? {
            var q :| q in AccessedPaths(e.fields[i].value.env) && p == k + "." + q;
            HeadOfName(k, q);
          }
        case None =>
          if k in e.computed && e.computed[k].Sub? {
            var q :| q in AccessedPaths(e.computed[k].env) && p == k + "." + q;
            HeadOfName(k, q);
          }
      }
    }
  }

  /** The paths reported for the names in `keys`. */
  function PathsFor(e: Env, keys: set<string>): set<string>
  {
    set k, p | k in keys && p in KeyPaths(e, k) :: p
  }

  lemma PathsForAdd(e: Env, keys: set<string>, k: string)
    ensures PathsFor(e, keys + {k}) == PathsFor(e, keys) + KeyPaths(e, k)
  {
  }

  lemma PathsForAll(e: Env)
    ensures PathsFor(e, e.accessed) == AccessedPaths(e)
  {
  }

  /** Appending paths headed by a new name keeps the list free of
      duplicates. */
  lemma AppendFresh(paths: seq<string>, more: seq<string>, done: set<string>, key: string)
    requires NoDups(paths) && NoDups(more) && key !in done
    requires forall j :: 0 <= j < |paths| ==> Head(paths[j]) in done
    requires forall j :: 0 <= j < |more| ==> Head(more[j]) == key
    ensures NoDups(paths + more)
    ensures Elems(paths + more) == Elems(paths) + Elems(more)
    ensures forall j :: 0 <= j < |paths + more| ==> Head((paths + more)[j]) in done + {key}
  {
    var r := paths + more;
    forall a, b | 0 <= a < b < |r| ensures r[a] != r[b] {
      if a < |paths| && b >= |paths| {
        assert Head(r[a]) in done && Head(r[b]) == key;
      }
    }
  }

  /** `[f"{key}.{subkey}" for subkey in inner]`. */
  method PrefixAll(key: string, inner: seq<string>) returns (more: seq<string>)
    requires NoDups(inner)
    ensures Elems(more) == Prefixed(key, Elems(inner)) && NoDups(more)
  {
    more := [];
    var n := 0;
    while n < |inner|
      invariant n <= |inner| && |more| == n
      invariant forall j :: 0 <= j < n ==> more[j] == key + "." + inner[j]
    {
      more := more + [key + "." + inner[n]];
      n := n + 1;
    }
    forall a, b | 0 <= a < b < |more| ensures more[a] != more[b] {
      assert more[a][|key| + 1..] == inner[a];
      assert more[b][|key| + 1..] == inner[b];
    }
    forall p | p in Prefixed(key, Elems(inner)) ensures p in Elems(more) {
      var q :| q in Elems(inner) && p == key + "." + q;
      var j :| 0 <= j < |inner| && inner[j] == q;
      assert more[j] == p;
    }
  }

  /** The paths for one accessed name, built as `get_accessed` builds them:
      the paths of the environment `getattr` reads for it, each prefixed by
      the name, or the name itself. */
  method PathsUnder(e: Env, key: string) returns (more: seq<string>)
    requires NoDotsBelow(e) && key in e.accessed
    ensures Elems(more) == KeyPaths(e, key) && NoDups(more)
    ensures forall j :: 0 <= j < |more| ==> Head(more[j]) == key
    decreases e, 0
  {
    KeyPathsHead(e, key);
    match FieldIndex(e.fields, key) {
      case Some(i) =>
        if e.fields[i].value.Sub? {
          var inner := GetAccessed(e.fields[i].value.env);
          more := PrefixAll(key, inner);
        } else {
          more := [key];
        }
      case None =>
        if key in e.computed && e.computed[key].Sub? {
          var inner := GetAccessed(e.computed[key].env);
          more := PrefixAll(key, inner);
        } else {
          more := [key];
        }
    }
    forall j | 0 <= j < |more| ensures Head(more[j]) == key {
      assert more[j] in KeyPaths(e, key);
    }
  }

  /** What `get_accessed` has built after handling the names in `done`:
      their paths, none twice, each headed by a handled name. */
  ghost predicate Gathered(e: Env, done: set<string>, paths: seq<string>)
  {
    && Elems(paths) == PathsFor(e, done)
    && NoDups(paths)
    && forall j :: 0 <= j < |paths| ==> Head(paths[j]) in done
  }

  lemma GatheredStep(e: Env, done: set<string>, paths: seq<string>, key: string, more: seq<string>)
    requires Gathered(e, done, paths) && key !in done
    requires Elems(more) == KeyPaths(e, key) && NoDups(more)
    requires forall j :: 0 <= j < |more| ==> Head(more[j]) == key
    ensures Gathered(e, done + {key}, paths + more)
  {
    AppendFresh(paths, more, done, key);
    PathsForAdd(e, done, key);
  }

  /** One round of the loop of `get_accessed`: the paths for `key` are
      appended. */
  method GatherKey(e: Env, key: string, paths: seq<string>, ghost done: set<string>)
    returns (paths': seq<string>)
    requires NoDotsBelow(e) && key in e.accessed && key !in done
    requires Gathered(e, done, paths)
    ensures Gathered(e, done + {key}, paths')
    decreases e, 1
  {
    var more := PathsUnder(e, key);
    GatheredStep(e, done, paths, key, more);
    paths' := paths + more;
  }

  /** `get_accessed` on one environment (with logging off while it runs): for
      each accessed name, in any order, the name itself or the paths of the
      nested environment under it. No path is reported twice. */
  method GetAccessed(e: Env) returns (paths: seq<string>)
    requires NoDotsBelow(e)
    ensures Elems(paths) == AccessedPaths(e)
    ensures NoDups(paths)
    decreases e, 2
  {
    paths := [];
    var todo := e.accessed;
    ghost var done: set<string> := {};
    while todo != {}
      invariant todo + done == e.accessed && todo !! done
      invariant Gathered(e, done, paths)
      decreases |todo|
    {
      var key :| key in todo;
      paths := GatherKey(e, key, paths, done);
      todo := todo - {key};
      done := done + {key};
    }
    PathsForAll(e);
  }

  // ---------------------------------------------------------------------------
  // `get_compound`

  /** `getattr(obj, name)` on any value: logs on an environment; anything
      else has no such attribute. Returns the object after the read and the
      attribute. */
  function GetAttr(v: Value, name: string): (Value, Result<Value, Error>)
  {
    match v
    case Sub(e) =>
      (Sub(Read(e, name)), match AttrValue(e, name) case Some(x) => Ok(x) case None => Err(AttributeError))
    case _ => (v, Err(AttributeError))
  }

  /** Puts back the (possibly updated) value of a declared field. */
  function SetAttr(v: Value, name: string, x: Value): Value
  {
    match v
    case Sub(e) =>
      (match FieldIndex(e.fields, name)
       case Some(i) => Sub(e.(fields := e.fields[i := Field(name, x)]))
       case None => v)
    case _ => v
  }

  /** Resolves the dotted parts of a compound key from `v`: each part is an
      attribute, or `name[index]` for an entry of a dictionary attribute.
      `trim` says whether the closing bracket is removed from the index.
      Returns the object after the reads (with their logs) and the result. */
  function Compound(v: Value, parts: seq<string>, trim: bool): (Value, Result<Value, Error>)
    decreases |parts|
  {
    if parts == [] then (v, Ok(v))
    else
      var part := parts[0];
      if '[' in part then
        var pieces := Split(part, '[');
        if |pieces| != 2 then (v, Err(ValueError))
        else
          var raw := pieces[1];
          var index := if trim && raw != [] then raw[..|raw| - 1] else raw;
          var (v1, attr) := GetAttr(v, pieces[0]);
          if attr.Err? then (v1, attr)
          else if !attr.value.Dict? then (v1, Err(TypeError))
          else if index !in attr.value.entries then (v1, Err(KeyError))
          else
            var (child, res) := Compound(attr.value.entries[index], parts[1..], trim);
            (SetAttr(v1, pieces[0], Dict(attr.value.entries[index := child])), res)
      else
        var (v1, attr) := GetAttr(v, part);
        if attr.Err? then (v1, attr)
        else
          var (child, res) := Compound(attr.value, parts[1..], trim);
          (SetAttr(v1, part, child), res)
  }

  /** `get_compound` as written: the bracket index keeps its `]`. */
  function GetCompoundAsWritten(e: Env, key: string): (Value, Result<Value, Error>)
  {
    Compound(Sub(e), Split(key, '.'), false)
  }

  /** `get_compound` with the index slice applied, as evidently intended. */
  function GetCompound(e: Env, key: string): (Value, Result<Value, Error>)
  {
    Compound(Sub(e), Split(key, '.'), true)
  }

  /** A dictionary field `d` holding key "1". */
  function IndexedExample(): Env
  {
    Env([Field("d", Dict(map["1" := Leaf("x")]))], map[], {}, true, false)
  }

  /** As written, `d[1]` looks up the key "1]" and fails with KeyError,
      although the dictionary holds "1". */
  lemma RawIndexMissesKey()
    ensures GetCompoundAsWritten(IndexedExample(), "d[1]").1 == Err(KeyError)
    ensures GetCompound(IndexedExample(), "d[1]").1 == Ok(Leaf("x"))
  {
    var parts := Split("d[1]", '.');
    assert '.' !in "d[1]";
    assert parts == ["d[1]"];
    assert "d[1]"[1] == '[';
    assert IndexOf("d[1]", '[') == 1;
    assert "d[1]"[2..] == "1]" && "d[1]"[..1] == "d";
    assert Split("1]", '[') == ["1]"];
    assert Split("d[1]", '[') == ["d", "1]"];
    assert "1]"[..1] == "1";
  }

  /** How `name[key]` splits: one dotted part, and two bracket pieces. */
  lemma SplitIndexed(name: string, key: string)
    requires '[' !in name && '.' !in name && '.' !in key && '[' !in key
    ensures Split(name + "[" + key + "]", '.') == [name + "[" + key + "]"]
    ensures Split(name + "[" + key + "]", '[') == [name, key + "]"]
  {
    var part := name + "[" + key + "]";
    assert part[|name|] == '[';
    forall j | 0 <= j < |part| ensures part[j] != '.' {
      if j < |name| { assert part[j] == name[j]; }
      else if j > |name| && j < |name| + 1 + |key| { assert part[j] == key[j - |name| - 1]; }
    }
    forall j | 0 <= j < |name| ensures part[j] != '[' {
      assert part[j] == name[j];
    }
    assert IndexOf(part, '[') == |name|;
    var raw := part[|name| + 1..];
    assert raw == key + "]";
    assert '[' !in raw by {
      forall j | 0 <= j < |raw| ensures raw[j] != '[' {
        if j < |key| { assert raw[j] == key[j]; }
      }
    }
    assert part[..|name|] == name;
  }

  /** With the slice applied, `name[key]` on a dictionary field returns its
      entry and logs the field name. */
  lemma IndexedLookup(e: Env, name: string, key: string)
    requires '[' !in name && '.' !in name && '.' !in key && '[' !in key
    requires FieldIndex(e.fields, name).Some?
    requires e.fields[FieldIndex(e.fields, name).value].value.Dict?
    requires key in e.fields[FieldIndex(e.fields, name).value].value.entries
    ensures var r := GetCompound(e, name + "[" + key + "]");
      && r.1 == Ok(e.fields[FieldIndex(e.fields, name).value].value.entries[key])
      && r.0.Sub? && r.0.env.accessed == Read(e, name).accessed
  {
    var part := name + "[" + key + "]";
    SplitIndexed(name, key);
    var raw := key + "]";
    assert raw[..|raw| - 1] == key;
    var i := FieldIndex(e.fields, name).value;
    var d := e.fields[i].value;
    var v1 := Sub(Read(e, name));
    assert GetAttr(Sub(e), name) == (v1, Ok(d));
    assert [part][1..] == [];
    var x := d.entries[key];
    assert Compound(x, [], true) == (x, Ok(x));
    assert Compound(Sub(e), [part], true) == (SetAttr(v1, name, Dict(d.entries[key := x])), Ok(x));
  }

  // ---------------------------------------------------------------------------
  // The root object

  /** The root `BaseEnv`: its flags and access log change in place. */
  class BaseEnv {
    var fields: seq<Field>
    var computed: map<string, Value>
    var accessed: set<string>
    var logging: bool
    var locked: bool

    /** The root as an environment value. */
    function State(): Env
      reads this
    {
      Env(fields, computed, accessed, logging, locked)
    }

    constructor(fields: seq<Field>, computed: map<string, Value>)
      ensures State() == Env(fields, computed, {}, true, false)
    {
      this.fields := fields;
      this.computed := computed;
      accessed := {};
      logging := true;
      locked := false;
    }

    /** `__getattribute__` for a field or computed field. */
    method GetAttribute(item: string) returns (r: Option<Value>)
      modifies this
      ensures State() == Read(old(State()), item)
      ensures r == AttrValue(old(State()), item)
    {
      r := AttrValue(State(), item);
      if !StartsWith(item, "_") && item != "model_fields" && item != "model_computed_fields"
         && logging && (FieldIndex(fields, item).Some? || item in computed) {
        accessed := accessed + {item};
      }
    }

    /** `fork`: a new root holding a deep copy with cleared logs. */
    method Fork() returns (r: Result<BaseEnv, Error>)
      ensures r.Err? <==> old(locked)
      ensures r.Err? ==> r.error == RuntimeError
      ensures r.Ok? ==> fresh(r.value) && r.value.State() == RecursiveCall(ClearNode, State())
    {
      if locked {
        return Err(RuntimeError);
      }
      var copy := RecursiveCall(ClearNode, State());
      var b := new BaseEnv(copy.fields, copy.computed);
      return Ok(b);
    }

    /** `lock`: this environment and every nested one are locked. */
    method Lock()
      modifies this
      ensures State() == RecursiveCall(LockNode, old(State()))
    {
      var r := RecursiveCall(LockNode, State());
      fields := r.fields;
      logging := true;
      locked := true;
    }

    /** `_clear_accesses` on the root. */
    method ClearAccesses()
      modifies this
      ensures State() == RecursiveCall(ClearNode, old(State()))
    {
      var r := RecursiveCall(ClearNode, State());
      fields := r.fields;
      logging := true;
      accessed := {};
    }

    /** `get_accessed` on the root: logging is on again afterwards. */
    method GetAccessedPaths() returns (paths: seq<string>)
      requires NoDotsBelow(State())
      modifies this
      ensures Elems(paths) == AccessedPaths(old(State())) && NoDups(paths)
      ensures State() == old(State()).(logging := true)
    {
      var s := State();
      logging := false;
      paths := GetAccessed(s);
      logging := true;
    }
  }
}
