/** Configuration precedence: the values of the environment variables that are set, placed at their
    mapped paths, are merged over the tree read from the file. */
module ConfigMerge {
  import opened Prelude

  /** A parsed value: a dictionary, or anything else. */
  datatype Value = Scalar(text: string) | Dict(fields: map<string, Value>)

  type Path = seq<string>

  function Get(v: Value, path: Path): Option<Value>
    decreases |path|
  {
    if path == [] then Some(v)
    else if v.Dict? && path[0] in v.fields then Get(v.fields[path[0]], path[1..])
    else None
  }

  // ---------- the recursive merge ----------

  /** The override's fields win, except that two dictionaries are merged. */
  function Merged(base: map<string, Value>, override: map<string, Value>): map<string, Value>
    decreases Dict(override)
  {
    map key | key in base.Keys + override.Keys ::
      if key !in override then base[key]
      else if override[key].Dict? && key in base && base[key].Dict?
      then Dict(Merged(base[key].fields, override[key].fields))
      else override[key]
  }

  method DeepMerge(base: map<string, Value>, override: map<string, Value>) returns (result: map<string, Value>)
    ensures result == Merged(base, override)
    decreases Dict(override)
  {
    result := base;
    var rest := override.Items;
    ghost var seen: set<string> := {};
    while rest != {}
      invariant rest <= override.Items && seen <= override.Keys
      invariant forall key :: key in override.Keys - seen ==> (key, override[key]) in rest
      invariant forall item :: item in rest ==> item.0 !in seen
      invariant result.Keys == base.Keys + seen
      invariant forall key :: key in result ==>
                  result[key] == if key in seen then Merged(base, override)[key] else base[key]
    {
      var item :| item in rest;
      var (key, value) := item;
      if value.Dict? && key in result && result[key].Dict? {
        var inner := DeepMerge(result[key].fields, value.fields);
        result := result[key := Dict(inner)];
      } else {
        result := result[key := value];
      }
      rest, seen := rest - {item}, seen + {key};
    }
  }

  /** `over` laid over `under`. */
  function Over(under: Value, over: Value): Value
  {
    if under.Dict? && over.Dict? then Dict(Merged(under.fields, over.fields)) else over
  }

  /** Some proper prefix of the path leads to something that is not a dictionary. */
  predicate Blocked(v: Value, path: Path)
    decreases |path|
  {
    path != [] && (v.Scalar? || (path[0] in v.fields && Blocked(v.fields[path[0]], path[1..])))
  }

  lemma {:induction false} BlockedIsNone(v: Value, path: Path)
    requires Blocked(v, path)
    ensures Get(v, path) == None
    decreases |path|
  {
    if v.Dict? {
      BlockedIsNone(v.fields[path[0]], path[1..]);
    }
  }

  /** A merge, seen path by path. */
  lemma {:induction false} MergeGet(b: Value, o: Value, path: Path)
    ensures Get(Over(b, o), path)
         == if Blocked(o, path) then None
            else if Get(o, path).None? then Get(b, path)
            else if Get(b, path).None? then Get(o, path)
            else Some(Over(Get(b, path).value, Get(o, path).value))
    decreases |path|
  {
    if path != [] && o.Dict? && path[0] in o.fields {
      if b.Dict? && path[0] in b.fields {
        MergeGet(b.fields[path[0]], o.fields[path[0]], path[1..]);
      } else if Blocked(o, path) {
        BlockedIsNone(o, path);
      }
    }
  }

  // ---------- the environment as a nested dictionary ----------

  datatype Entry = Entry(variable: string, path: Path)

  type Environment = map<string, string>

  /** Sets the leaf at a path, making dictionaries on the way. None: the path is empty, or something on
      the way is not a dictionary. */
  function Put(fields: map<string, Value>, path: Path, text: string): Option<map<string, Value>>
    decreases |path|
  {
    if path == [] then None
    else if |path| == 1 then Some(fields[path[0] := Scalar(text)])
    else
      var child := if path[0] in fields then fields[path[0]] else Dict(map[]);
      if child.Scalar? then None
      else
        var inner := Put(child.fields, path[1..], text);
        if inner.None? then None else Some(fields[path[0] := Dict(inner.value)])
  }

  /** The variables of the first entries that are set, each put in its place. */
  function Nested(table: seq<Entry>, env: Environment): Option<map<string, Value>>
    decreases |table|
  {
    if table == [] then Some(map[])
    else
      var before, last := Nested(table[..|table| - 1], env), table[|table| - 1];
      if before.None? || last.variable !in env then before else Put(before.value, last.path, env[last.variable])
  }

  method EnvToNested(table: seq<Entry>, env: Environment) returns (result: Option<map<string, Value>>)
    ensures result == Nested(table, env)
  {
    var nested: map<string, Value> := map[];
    for i := 0 to |table|
      invariant Nested(table[..i], env) == Some(nested)
    {
      assert table[..i + 1][..i] == table[..i];
      if table[i].variable in env {
        var next := Put(nested, table[i].path, env[table[i].variable]);
        if next.None? {
          FailureStays(table, env, i + 1);
          return None;
        }
        nested := next.value;
      }
    }
    assert table[..|table|] == table;
    return Some(nested);
  }

  lemma {:induction false} FailureStays(table: seq<Entry>, env: Environment, n: nat)
    requires n <= |table| && Nested(table[..n], env) == None
    ensures Nested(table, env) == None
    decreases |table| - n
  {
    if n == |table| {
      assert table[..n] == table;
    } else {
      assert table[..n + 1][..n] == table[..n];
      FailureStays(table, env, n + 1);
    }
  }

  /** No mapped path is empty, equals another or leads through another. */
  ghost predicate PrefixFree(table: seq<Entry>)
  {
    && (forall i | 0 <= i < |table| :: table[i].path != [])
    && forall i, j | 0 <= i < |table| && 0 <= j < |table| && i != j :: !(table[i].path <= table[j].path)
  }

  /** The path belongs to a variable that is set, to this value. */
  ghost predicate SetTo(table: seq<Entry>, env: Environment, path: Path, text: string)
  {
    exists e :: e in table && e.variable in env && e.path == path && env[e.variable] == text
  }

  /** A set path lies below this one. */
  ghost predicate Above(table: seq<Entry>, env: Environment, path: Path)
  {
    exists e :: e in table && e.variable in env && path < e.path
  }

  /** A set path lies at, above or below this one. */
  ghost predicate Touched(table: seq<Entry>, env: Environment, path: Path)
  {
    exists e :: e in table && e.variable in env && (e.path <= path || path <= e.path)
  }

  lemma {:induction false} PutGet(fields: map<string, Value>, path: Path, text: string, q: Path)
    requires path != [] && !Blocked(Dict(fields), path)
    ensures Put(fields, path, text).Some?
    ensures var after := Get(Dict(Put(fields, path, text).value), q);
            if q == path then after == Some(Scalar(text))
            else if path <= q then after == None
            else if q <= path then after.Some? && after.value.Dict?
            else after == Get(Dict(fields), q)
    decreases |path|
  {
    if |path| > 1 {
      var child := if path[0] in fields then fields[path[0]] else Dict(map[]);
      assert child.Dict?;
      PutGet(child.fields, path[1..], text, if q == [] then [] else q[1..]);
    }
  }

  lemma {:induction false} BlockedIff(v: Value, path: Path)
    ensures Blocked(v, path) <==>
            exists k: nat :: k < |path| && Get(v, path[..k]).Some? && Get(v, path[..k]).value.Scalar?
    decreases |path|
  {
    if path != [] {
      assert Get(v, path[..0]) == Some(v);
      if v.Dict? && path[0] in v.fields {
        var child, rest := v.fields[path[0]], path[1..];
        BlockedIff(child, rest);
        forall k: nat | k < |rest| ensures Get(child, rest[..k]) == Get(v, path[..k + 1]) {
          assert path[..k + 1][1..] == rest[..k];
        }
        if k: nat :| k < |path| && Get(v, path[..k]).Some? && Get(v, path[..k]).value.Scalar? {
          assert k > 0;
          assert Get(child, rest[..k - 1]) == Get(v, path[..k - 1 + 1]);
        }
      } else if v.Dict? {
        forall k: nat | 0 < k < |path| ensures Get(v, path[..k]).None? {
          assert path[..k][0] == path[0];
        }
      }
    }
  }

  // ---------- what the environment's dictionary holds ----------

  /** A path leads to a text exactly if a set variable put it there, and to a dictionary exactly if one
      lies below. */
  ghost predicate ShapeAt(v: Value, table: seq<Entry>, env: Environment, path: Path)
  {
    && (forall text :: Get(v, path) == Some(Scalar(text)) <==> SetTo(table, env, path, text))
    && (path != [] ==> (Get(v, path).Some? && Get(v, path).value.Dict? <==> Above(table, env, path)))
  }

  lemma PrefixFreeLast(table: seq<Entry>, e: Entry)
    requires PrefixFree(table) && table != [] && e in table[..|table| - 1]
    ensures !(e.path <= table[|table| - 1].path) && !(table[|table| - 1].path <= e.path)
  {
    var i :| 0 <= i < |table| - 1 && table[i] == e;
  }

  lemma ShapeAfterPut(v: map<string, Value>, table: seq<Entry>, env: Environment, q: Path)
    requires PrefixFree(table) && table != [] && table[|table| - 1].variable in env
    requires !Blocked(Dict(v), table[|table| - 1].path)
    requires ShapeAt(Dict(v), table[..|table| - 1], env, q)
    ensures var last := table[|table| - 1];
            var after := Put(v, last.path, env[last.variable]);
            after.Some? && ShapeAt(Dict(after.value), table, env, q)
  {
    var before, last := table[..|table| - 1], table[|table| - 1];
    PutGet(v, last.path, env[last.variable], q);
    assert table == before + [last];
    forall e | e in before ensures !(e.path <= last.path) && !(last.path <= e.path) {
      PrefixFreeLast(table, e);
    }
    assert Above(table, env, q) <==> Above(before, env, q) || q < last.path;
    forall text
      ensures SetTo(table, env, q, text) <==>
              SetTo(before, env, q, text) || (q == last.path && text == env[last.variable])
    {
    }
  }

  lemma ShapeWithoutLast(v: Value, table: seq<Entry>, env: Environment, q: Path)
    requires table != [] && table[|table| - 1].variable !in env && ShapeAt(v, table[..|table| - 1], env, q)
    ensures ShapeAt(v, table, env, q)
  {
    var before, last := table[..|table| - 1], table[|table| - 1];
    assert table == before + [last];
    assert Above(table, env, q) <==> Above(before, env, q);
    forall text ensures SetTo(table, env, q, text) <==> SetTo(before, env, q, text) {
    }
  }

  lemma {:induction false} NestedShape(table: seq<Entry>, env: Environment, q: Path)
    requires PrefixFree(table)
    ensures Nested(table, env).Some? && ShapeAt(Dict(Nested(table, env).value), table, env, q)
    decreases |table|, 1
  {
    if table == [] {
      assert q == [] || Get(Dict(map[]), q).None?;
    } else {
      var before, last := table[..|table| - 1], table[|table| - 1];
      NestedShape(before, env, q);
      if last.variable in env {
        NothingOnTheWay(table, env);
        ShapeAfterPut(Nested(before, env).value, table, env, q);
      } else {
        ShapeWithoutLast(Dict(Nested(before, env).value), table, env, q);
      }
    }
  }

  lemma NoneSetOnTheWay(table: seq<Entry>, env: Environment, k: nat, text: string)
    requires PrefixFree(table) && table != [] && k <= |table[|table| - 1].path|
    ensures !SetTo(table[..|table| - 1], env, table[|table| - 1].path[..k], text)
  {
    forall e | e in table[..|table| - 1] ensures e.path != table[|table| - 1].path[..k] {
      PrefixFreeLast(table, e);
      assert table[|table| - 1].path[..k] <= table[|table| - 1].path;
    }
  }

  lemma NothingOnTheWay(table: seq<Entry>, env: Environment)
    requires PrefixFree(table) && table != []
    ensures var v := Nested(table[..|table| - 1], env);
            v.Some? && !Blocked(Dict(v.value), table[|table| - 1].path)
    decreases |table|, 0
  {
    var before, path := table[..|table| - 1], table[|table| - 1].path;
    NestedShape(before, env, path);
    var v := Dict(Nested(before, env).value);
    BlockedIff(v, path);
    forall k: nat | k < |path| ensures Get(v, path[..k]).Some? ==> Get(v, path[..k]).value.Dict? {
      NestedShape(before, env, path[..k]);
      if Get(v, path[..k]).Some? && Get(v, path[..k]).value.Scalar? {
        NoneSetOnTheWay(table, env, k, Get(v, path[..k]).value.text);
      }
    }
  }

  // ---------- when nesting fails ----------

  lemma {:induction false} BlockedPutFails(fields: map<string, Value>, path: Path, text: string)
    requires path == [] || Blocked(Dict(fields), path)
    ensures Put(fields, path, text) == None
    decreases |path|
  {
    if |path| > 1 && path[0] in fields && fields[path[0]].Dict? {
      BlockedPutFails(fields[path[0]].fields, path[1..], text);
    }
  }

  lemma PutBlocks(fields: map<string, Value>, path: Path, text: string, q: Path)
    requires path != [] && !Blocked(Dict(fields), path)
    ensures Put(fields, path, text).Some?
    ensures Blocked(Dict(Put(fields, path, text).value), q) <==> Blocked(Dict(fields), q) || path < q
  {
    PutGet(fields, path, text, q);
    var v, after := Dict(fields), Dict(Put(fields, path, text).value);
    BlockedIff(v, path);
    BlockedIff(v, q);
    BlockedIff(after, q);
    forall k: nat | k < |q|
      ensures ScalarAt(after, q[..k]) <==> q[..k] == path || (ScalarAt(v, q[..k]) && !(path <= q[..k]))
    {
      PutGet(fields, path, text, q[..k]);
      if q[..k] < path { assert q[..k] == path[..k] && !ScalarAt(v, path[..k]); }
    }
    if path < q {
      assert q[..|path|] == path && ScalarAt(after, q[..|path|]);
    } else {
      forall k: nat | k < |q| ensures !(path <= q[..k]) {
        if path <= q[..k] { BelowPart(path, q, k); }
      }
    }
  }

  predicate ScalarAt(v: Value, path: Path) { Get(v, path).Some? && Get(v, path).value.Scalar? }

  lemma BelowPart(path: Path, q: Path, k: nat)
    requires k < |q| && path <= q[..k]
    ensures path < q
  {
  }

  /** The n-th entry cannot be placed: its path is empty, or an earlier one has put a value on its way. */
  ghost predicate Misplaced(table: seq<Entry>, env: Environment, n: nat)
    requires n < |table|
  {
    table[n].variable in env && (table[n].path == [] || Below(table[..n], env, table[n].path))
  }

  lemma {:induction false} NestedBlocks(table: seq<Entry>, env: Environment, q: Path)
    requires forall n | 0 <= n < |table| :: !Misplaced(table, env, n)
    ensures Nested(table, env).Some?
    ensures Blocked(Dict(Nested(table, env).value), q) <==> Below(table, env, q)
    decreases |table|
  {
    if table != [] {
      var n := |table| - 1;
      var before, last := table[..n], table[n];
      forall k | 0 <= k < n ensures !Misplaced(before, env, k) {
        assert before[..k] == table[..k] && !Misplaced(table, env, k);
      }
      NestedBlocks(before, env, q);
      assert table == before + [last];
      if last.variable in env {
        assert !Misplaced(table, env, n);
        NestedBlocks(before, env, last.path);
        PutBlocks(Nested(before, env).value, last.path, env[last.variable], q);
        assert Below(table, env, q) <==> Below(before, env, q) || last.path < q;
      } else {
        assert Below(table, env, q) <==> Below(before, env, q);
      }
    }
  }

  /** For any table and any environment: nesting fails if and only if some set variable's path is empty or
      runs through the path of a set variable that comes earlier in the table. */
  lemma NestingFailsIff(table: seq<Entry>, env: Environment)
    ensures Nested(table, env).None? <==> exists n :: 0 <= n < |table| && Misplaced(table, env, n)
  {
    if n :| 0 <= n < |table| && Misplaced(table, env, n) {
      var first := FirstMisplaced(table, env, n);
      var before, e := table[..first], table[first];
      forall k | 0 <= k < |before| ensures !Misplaced(before, env, k) {
        assert before[..k] == table[..k] && !Misplaced(table, env, k);
      }
      NestedBlocks(before, env, e.path);
      BlockedPutFails(Nested(before, env).value, e.path, env[e.variable]);
      assert table[..first + 1][..first] == before;
      FailureStays(table, env, first + 1);
    } else {
      NestedBlocks(table, env, []);
    }
  }

  lemma {:induction false} FirstMisplaced(table: seq<Entry>, env: Environment, n: nat) returns (first: nat)
    requires n < |table| && Misplaced(table, env, n)
    ensures first < |table| && Misplaced(table, env, first) && forall k | 0 <= k < first :: !Misplaced(table, env, k)
    decreases n
  {
    if k :| 0 <= k < n && Misplaced(table, env, k) {
      first := FirstMisplaced(table, env, k);
    } else {
      first := n;
    }
  }

  // ---------- precedence ----------

  /** Every text of the merged tree, and only those: the value of a set variable at its path, and what
      the file says at paths that no set variable touches. */
  lemma MergedTexts(table: seq<Entry>, env: Environment, file: map<string, Value>, path: Path, text: string)
    requires PrefixFree(table)
    ensures Nested(table, env).Some?
    ensures Get(Dict(Merged(file, Nested(table, env).value)), path) == Some(Scalar(text)) <==>
            SetTo(table, env, path, text) ||
            (!Touched(table, env, path) && Get(Dict(file), path) == Some(Scalar(text)))
  {
    NestedShape(table, env, path);
    var o := Dict(Nested(table, env).value);
    MergeGet(Dict(file), o, path);
    BlockedMeansBelow(table, env, path);
    TouchedCases(table, env, path);
  }

  ghost predicate Below(table: seq<Entry>, env: Environment, path: Path)
  {
    exists e :: e in table && e.variable in env && e.path < path
  }

  lemma BlockedMeansBelow(table: seq<Entry>, env: Environment, path: Path)
    requires PrefixFree(table)
    ensures Nested(table, env).Some?
    ensures Blocked(Dict(Nested(table, env).value), path) <==> Below(table, env, path)
  {
    NestedShape(table, env, path);
    var o := Dict(Nested(table, env).value);
    BlockedIff(o, path);
    forall k: nat | k < |path| ensures ShapeAt(o, table, env, path[..k]) {
      NestedShape(table, env, path[..k]);
    }
    if Blocked(o, path) {
      var k: nat :| k < |path| && Get(o, path[..k]).Some? && Get(o, path[..k]).value.Scalar?;
      assert SetTo(table, env, path[..k], Get(o, path[..k]).value.text);
    }
    if Below(table, env, path) {
      var e :| e in table && e.variable in env && e.path < path;
      assert e.path == path[..|e.path|];
      assert SetTo(table, env, path[..|e.path|], env[e.variable]);
    }
  }

  lemma TouchedCases(table: seq<Entry>, env: Environment, path: Path)
    requires PrefixFree(table)
    ensures Touched(table, env, path) <==>
            Above(table, env, path) || Below(table, env, path) || exists text :: SetTo(table, env, path, text)
  {
    if e :| e in table && e.variable in env && (e.path <= path || path <= e.path) {
      assert e.path < path || path < e.path || SetTo(table, env, path, env[e.variable]);
    }
  }

  /** A variable that is set decides its field, whatever the file holds there, above or below. */
  lemma VariableWins(table: seq<Entry>, env: Environment, file: map<string, Value>, e: Entry)
    requires PrefixFree(table) && e in table && e.variable in env
    ensures Nested(table, env).Some?
    ensures Get(Dict(Merged(file, Nested(table, env).value)), e.path) == Some(Scalar(env[e.variable]))
  {
    assert SetTo(table, env, e.path, env[e.variable]);
    MergedTexts(table, env, file, e.path, env[e.variable]);
  }

  /** A text in the file is kept exactly if no set variable lies at, above or below its path, or one set
      the very same text. A plain value where the table expects a section is lost with any variable of
      that section. */
  lemma FileTextSurvivesIff(table: seq<Entry>, env: Environment, file: map<string, Value>, path: Path, text: string)
    requires PrefixFree(table) && Get(Dict(file), path) == Some(Scalar(text))
    ensures Nested(table, env).Some?
    ensures Get(Dict(Merged(file, Nested(table, env).value)), path) == Some(Scalar(text)) <==>
            !Touched(table, env, path) || SetTo(table, env, path, text)
  {
    MergedTexts(table, env, file, path, text);
  }

  /** Where no set variable lies at, above or below a path, the merged tree is the file's: texts, whole
      sections, empty ones, and what is missing. */
  lemma UntouchedIsKept(table: seq<Entry>, env: Environment, file: map<string, Value>, path: Path)
    requires PrefixFree(table) && path != [] && !Touched(table, env, path)
    ensures Nested(table, env).Some?
    ensures Get(Dict(Merged(file, Nested(table, env).value)), path) == Get(Dict(file), path)
  {
    NestedShape(table, env, path);
    var o := Dict(Nested(table, env).value);
    MergeGet(Dict(file), o, path);
    BlockedMeansBelow(table, env, path);
    TouchedCases(table, env, path);
    NothingThere(o, table, env, path);
  }

  lemma NothingThere(v: Value, table: seq<Entry>, env: Environment, path: Path)
    requires ShapeAt(v, table, env, path) && path != []
    requires !Above(table, env, path) && forall text :: !SetTo(table, env, path, text)
    ensures Get(v, path) == None
  {
    if Get(v, path).Some? { ScalarOrDict(Get(v, path).value); }
  }

  lemma ScalarOrDict(v: Value)
    ensures v.Dict? || v == Scalar(v.text)
  {
  }

  /** The file's tree with the environment's values over it: every text, and everything no variable
      touches. */
  ghost predicate Precedence(table: seq<Entry>, env: Environment, file: map<string, Value>, merged: map<string, Value>)
  {
    && (forall path, text :: Get(Dict(merged), path) == Some(Scalar(text)) <==>
                             SetTo(table, env, path, text) ||
                             (!Touched(table, env, path) && Get(Dict(file), path) == Some(Scalar(text))))
    && (forall path | path != [] && !Touched(table, env, path) :: Get(Dict(merged), path) == Get(Dict(file), path))
  }

  lemma MergedPrecedence(table: seq<Entry>, env: Environment, file: map<string, Value>)
    requires PrefixFree(table)
    ensures Nested(table, env).Some? && Precedence(table, env, file, Merged(file, Nested(table, env).value))
  {
    NestedShape(table, env, []);
    var merged := Merged(file, Nested(table, env).value);
    forall path, text
      ensures Get(Dict(merged), path) == Some(Scalar(text)) <==>
              SetTo(table, env, path, text) ||
              (!Touched(table, env, path) && Get(Dict(file), path) == Some(Scalar(text)))
    {
      MergedTexts(table, env, file, path, text);
    }
    forall path | path != [] && !Touched(table, env, path)
      ensures Get(Dict(merged), path) == Get(Dict(file), path)
    {
      UntouchedIsKept(table, env, file, path);
    }
  }

  method MergeEnvironment(table: seq<Entry>, file: map<string, Value>, env: Environment)
    returns (merged: map<string, Value>)
    requires PrefixFree(table)
    ensures Precedence(table, env, file, merged)
  {
    MergedPrecedence(table, env, file);
    var nested := EnvToNested(table, env);
    merged := DeepMerge(file, nested.value);
  }
}
