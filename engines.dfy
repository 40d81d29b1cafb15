/**
 * The configuration-engine boundary, modelled abstractly: an engine is the set of named resources it can
 * read, each holding a configuration mapping. Dumping stores a mapping under a resource name.
 */
module Engines {
  import opened Values

  datatype Engine = Engine(resources: map<string, map<string, Value>>)

  datatype ReadResult = Found(data: map<string, Value>) | Missing

  /** An engine's read of a resource: the stored mapping, or a failure when no such resource exists. */
  function ReadResource(e: Engine, name: string): ReadResult {
    if name in e.resources then Found(e.resources[name]) else Missing
  }

  /** An engine's dump of `data` under `name`: the engine afterwards has that resource, others untouched. */
  function DumpResource(e: Engine, name: string, data: map<string, Value>): (r: Engine)
    ensures ReadResource(r, name) == Found(data)
    ensures forall n :: n != name ==> ReadResource(r, n) == ReadResource(e, n)
  {
    Engine(e.resources[name := data])
  }

  /**
   * The key filter applied before a dump: with no keys the whole tree, otherwise only the top-level
   * entries whose key is listed, each with its full subtree.
   */
  function FilterKeys(t: map<string, Value>, keys: seq<string>): map<string, Value> {
    if keys == [] then t else map k | k in t && k in keys :: t[k]
  }
}
