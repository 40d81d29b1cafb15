/**
 * What the store promises across calls, stated on the functions its methods are specified by:
 * a write reads back, check uses null identity, delete and consume clear what is beneath, load
 * replaces or merges, dump's filter and a later load agree, and the token check.
 */
module ConfigureProperties {
  import opened Values
  import opened Paths
  import opened Tree
  import opened Engines
  import opened Configure

  // ----- write and read -----

  /** After write(P, V), read(P) is V, null included. */
  lemma WriteThenRead(t: map<string, Value>, s: string, v: Value)
    requires s != ""
    ensures ReadPath(Insert(t, Split(s), v), Some(s)) == v
  {
    AtInsertBeneath(t, Split(s), v, []);
    assert Split(s) + [] == Split(s);
  }

  /** After write(P, V) with V a mapping, every path P.Q reads the part of V at Q. */
  lemma WriteThenReadBeneath(t: map<string, Value>, s: string, v: Value, q: string)
    requires s != ""
    ensures ReadPath(Insert(t, Split(s), v), Some(s + "." + q)) == At(v, Split(q))
  {
    SplitConcat(s, q);
    AtInsertBeneath(t, Split(s), v, Split(q));
  }

  /** A deep write below a path holding no mapping makes that path read the freshly built levels. */
  lemma DeepWriteCreatesLevels(t: map<string, Value>, s: string, rest: seq<string>, v: Value)
    requires s != "" && |rest| >= 1 && AllPlain(rest)
    requires !ReadPath(t, Some(s)).Map?
    ensures ReadPath(Insert(t, Split(s + "." + Join(rest)), v), Some(s)) == Nest(rest, v)
  {
    SplitConcat(s, Join(rest));
    SplitJoin(rest);
    AtInsertFresh(t, Split(s), rest, v);
  }

  /** A write leaves every path that parts from it unchanged. */
  lemma WriteKeepsOthers(t: map<string, Value>, s: string, s2: string, v: Value)
    requires s2 != "" && Diverge(Split(s), Split(s2))
    ensures ReadPath(Insert(t, Split(s), v), Some(s2)) == ReadPath(t, Some(s2))
  {
    AtInsertOther(t, Split(s), v, Split(s2));
  }

  /** P.a and P.b, for different segments a and b, part ways: they are siblings. */
  lemma SiblingPaths(s: string, a: string, b: string)
    requires Plain(a) && Plain(b) && a != b
    ensures Diverge(Split(s + "." + a), Split(s + "." + b))
  {
    SplitConcat(s, a);
    SplitConcat(s, b);
    SiblingsDiverge(Split(s), a, [], b, []);
    assert Split(s) + [a] + [] == Split(s) + Split(a);
    assert Split(s) + [b] + [] == Split(s) + Split(b);
  }

  // ----- check -----

  /** check(P) after write(P, V) holds exactly when V is not null: 0, "0" and false are set. */
  lemma CheckUsesNullIdentity(t: map<string, Value>, s: string, v: Value)
    requires s != ""
    ensures CheckPath(Insert(t, Split(s), v), Some(s)) <==> v != Null
    ensures v == Int(0) || v == Str("0") || v == Bool(false) ==> CheckPath(Insert(t, Split(s), v), Some(s))
    ensures !CheckPath(t, None) && !CheckPath(t, Some(""))
  {
    WriteThenRead(t, s, v);
  }

  // ----- the initial store and clear -----

  /** A fresh store reads its debug level, lists `debug` in the whole tree and nothing else. */
  lemma FreshStore(level: nat, s: string)
    requires s != "" && Split(s)[0] != DebugKey
    ensures ReadPath(map[DebugKey := Int(level)], Some(DebugKey)) == Int(level)
    ensures DebugKey in ReadPath(map[DebugKey := Int(level)], None).m
    ensures ReadPath(map[DebugKey := Int(level)], Some(s)) == Null
  {
    assert DebugKey != "" && Plain(DebugKey);
    var t := map[DebugKey := Int(level)];
    assert Split(DebugKey) == [DebugKey];
    assert At(Map(t), [DebugKey]) == At(Int(level), []);
  }

  /** After clear(), every path reads null and none is set, `debug` included. */
  lemma ClearedReadsNull(s: string)
    requires s != ""
    ensures ReadPath(map[], Some(s)) == Null && !CheckPath(map[], Some(s))
  {
    AtEmpty(Split(s));
  }

  // ----- readOrFail -----

  /** The failure of readOrFail names the key that was asked for. */
  lemma MissingKeyMessageNamesPath(p: string)
    ensures Contains(MissingKeyMessage(p), p)
  {
    var pre := "Expected configuration key \"";
    var msg := MissingKeyMessage(p);
    assert msg == pre + p + "\" not found";
    assert msg[|pre|..][..|p|] == p;
  }

  // ----- delete and consume -----

  /** After delete(P), P reads null. */
  lemma DeleteThenRead(t: map<string, Value>, s: string)
    requires s != ""
    ensures ReadPath(Remove(t, Split(s)), Some(s)) == Null
  {
    AtRemoveBeneath(t, Split(s), []);
    assert Split(s) + [] == Split(s);
  }

  /** After delete(P), every path P.Q beneath it reads null. */
  lemma DeleteClearsBeneath(t: map<string, Value>, s: string, q: string)
    requires s != ""
    ensures ReadPath(Remove(t, Split(s)), Some(s + "." + q)) == Null
  {
    SplitConcat(s, q);
    AtRemoveBeneath(t, Split(s), Split(q));
  }

  /** delete(P) and consume(P) leave every path that parts from P unchanged. */
  lemma DeleteKeepsOthers(t: map<string, Value>, s: string, s2: string)
    requires s2 != "" && Diverge(Split(s), Split(s2))
    ensures ReadPath(Remove(t, Split(s)), Some(s2)) == ReadPath(t, Some(s2))
  {
    AtRemoveOther(t, Split(s), Split(s2));
  }

  /** Consuming P.k out of a mapping at P leaves P holding the remaining children only. */
  lemma ConsumeChildLeavesRest(t: map<string, Value>, s: string, k: string, c: map<string, Value>)
    requires s != "" && Plain(k) && ReadPath(t, Some(s)) == Map(c)
    ensures ReadPath(Remove(t, Split(s + "." + k)), Some(s)) == Map(c - {k})
  {
    SplitConcat(s, k);
    AtRemoveChild(t, Split(s), k, c);
  }

  // ----- load -----

  /** Top-level keys the loaded data does not mention survive a load, with or without merge. */
  lemma LoadKeepsAbsentKeys(t: map<string, Value>, data: map<string, Value>, merge: bool, k: string)
    requires k in t && k !in data
    ensures k in Loaded(t, data, merge) && Loaded(t, data, merge)[k] == t[k]
  {
  }

  /** Without merge, a loaded top-level key replaces the old subtree wholesale: paths read the new one. */
  lemma LoadReplaces(t: map<string, Value>, data: map<string, Value>, k: string, q: seq<string>)
    requires k in data
    ensures At(Map(Loaded(t, data, false)), [k] + q) == At(data[k], q)
  {
    assert ([k] + q)[0] == k && ([k] + q)[1..] == q;
  }

  /** With merge, a value of the old tree that the data does not override at any level survives. */
  lemma LoadMergeKeepsOld(t: map<string, Value>, data: map<string, Value>, p: seq<string>)
    requires |p| >= 1 && NotOverridden(data, p)
    ensures At(Map(Loaded(t, data, true)), p) == At(Map(t), p)
  {
    MergeKeeps(t, data, p);
  }

  /** With merge, a scalar that the data holds at a path wins over what the tree held there. */
  lemma LoadMergeNewWins(t: map<string, Value>, data: map<string, Value>, p: seq<string>)
    requires At(Map(data), p) != Null && !At(Map(data), p).Map?
    ensures At(Map(Loaded(t, data, true)), p) == At(Map(data), p)
  {
    MergeWins(t, data, p);
  }

  /** Loading back what dump handed to the engine, merged or not, leaves the tree as it was. */
  lemma DumpThenLoadIsIdentity(t: map<string, Value>, keys: seq<string>, merge: bool, e: Engine, res: string)
    ensures ReadResource(DumpResource(e, res, FilterKeys(t, keys)), res) == Found(FilterKeys(t, keys))
    ensures Loaded(t, FilterKeys(t, keys), merge) == t
  {
    var f := FilterKeys(t, keys);
    if merge {
      MergeSubmap(t, f);
    } else {
      assert t + f == t;
    }
  }

  /** A dump with no key list hands the engine the whole tree. */
  lemma FullDumpIsTree(t: map<string, Value>, e: Engine, res: string)
    ensures ReadResource(DumpResource(e, res, FilterKeys(t, [])), res) == Found(t)
  {
  }

  /** A partial dump keeps every listed top-level key the tree has, with its whole subtree. */
  lemma PartialDumpKeepsListed(t: map<string, Value>, keys: seq<string>, k: string, q: seq<string>)
    requires k in keys && k in t
    ensures k in FilterKeys(t, keys)
    ensures At(Map(FilterKeys(t, keys)), [k] + q) == At(Map(t), [k] + q)
  {
    assert ([k] + q)[0] == k && ([k] + q)[1..] == q;
  }

  /** A partial dump leaves out every top-level key it was not asked for, `debug` among them. */
  lemma PartialDumpLeavesOut(t: map<string, Value>, keys: seq<string>, k: string)
    requires keys != [] && k !in keys
    ensures k !in FilterKeys(t, keys)
  {
  }

  // ----- debug flag -----

  /** Writing a non-null value to `debug` sets the flag from its truthiness; other writes leave it. */
  lemma DebugWriteSetsFlag(flag: bool, path: string, v: Value)
    ensures DebugFlag(flag, map[path := v]) ==
      if path == DebugKey && v != Null then Truthy(v) else flag
    ensures DebugFlag(flag, map[DebugKey := Bool(false)]) == false
    ensures DebugFlag(flag, map[DebugKey := Bool(true)]) == true
  {
  }

  // ----- checkTokenKey -----

  /**
   * After writing V at Discord.token, checkTokenKey fails exactly when V is the shipped placeholder, and
   * its failure names that key.
   */
  lemma TokenCheckAfterWrite(t: map<string, Value>, v: Value)
    ensures TokenCheck(Insert(t, Split(TokenKey), v)).Fail? <==> v == Str(TokenPlaceholder)
    ensures TokenCheck(Insert(t, Split(TokenKey), v)) == if v == Str(TokenPlaceholder) then Fail(InvalidCredential(TokenKey)) else Pass
  {
    WriteThenRead(t, TokenKey, v);
  }
}
