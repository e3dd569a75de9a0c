/** References to IP pools. */
module IPPools {
  const POOL_GROUP := "ipam.metal3.io"
  const POOL_KIND := "IPPool"

  datatype PoolRef = PoolRef(name: string, group: string, kind: string)

  function Metal3Pool(name: string): PoolRef {
    PoolRef(name, POOL_GROUP, POOL_KIND)
  }

  /** Group and kind default to those of Metal3 pools, each on its own. */
  function Defaulted(r: PoolRef): PoolRef {
    r.(group := if r.group == "" then POOL_GROUP else r.group, kind := if r.kind == "" then POOL_KIND else r.kind)
  }

  predicate IsMetal3(r: PoolRef) {
    (r.group == POOL_GROUP && r.kind == POOL_KIND) || (r.group == "" && r.kind == "")
  }
}
