/**
 * The chain directory: the deployed-address map, read as a JSON object whose entries keep
 * their order, looked up by `getAnonAuthoriserAddress` and listed by `getAllDeployedChains`.
 */
module Directory {
  import opened Wrappers

  /** One entry of the address map: a chain name and its `address` field. */
  datatype Deployment = Deployment(chain: string, address: string)

  /** A JavaScript object has each key once. */
  predicate DistinctChains(dir: seq<Deployment>) {
    forall i, j :: 0 <= i < j < |dir| ==> dir[i].chain != dir[j].chain
  }

  /** `map[chain]`: the entry stored under that name, if any. */
  function Lookup(dir: seq<Deployment>, chain: string): (r: Option<Deployment>)
    ensures r.Some? ==> r.value in dir && r.value.chain == chain
    ensures r.None? ==> forall i :: 0 <= i < |dir| ==> dir[i].chain != chain
  {
    if dir == [] then None
    else if dir[0].chain == chain then Some(dir[0])
    else Lookup(dir[1..], chain)
  }

  /** The message of the error thrown for a chain without a usable address. */
  function NotAvailable(chain: string): string {
    "anon-authoriser not available on \"" + chain + "\""
  }

  /**
   * `getAnonAuthoriserAddress`: the entry's address, or an error when the chain has no entry
   * or its address is empty (`!address` also rejects the empty string).
   */
  function GetAnonAuthoriserAddress(dir: seq<Deployment>, chain: string): (r: Result<string, string>)
    requires DistinctChains(dir)
    ensures r.Success? <==> exists i :: 0 <= i < |dir| && dir[i].chain == chain && dir[i].address != ""
    ensures r.Success? ==> Deployment(chain, r.value) in dir
    ensures r.Failure? ==> r.error == NotAvailable(chain)
  {
    match Lookup(dir, chain)
    case Some(d) => if d.address != "" then Success(d.address) else Failure(NotAvailable(chain))
    case None => Failure(NotAvailable(chain))
  }

  /**
   * `getAllDeployedChains`: `Object.keys`, the chain names in entry order (for non-numeric
   * names; `Object.keys` would list integer-like names first, in numeric order).
   */
  function GetAllDeployedChains(dir: seq<Deployment>): (chains: seq<string>)
    ensures |chains| == |dir|
    ensures forall i :: 0 <= i < |dir| ==> chains[i] == dir[i].chain
  {
    if dir == [] then [] else [dir[0].chain] + GetAllDeployedChains(dir[1..])
  }

  /** Every listed chain has an entry, every entry is listed, and the list repeats no chain. */
  lemma {:induction false} DeployedChainsAreTheKeys(dir: seq<Deployment>, chain: string)
    requires DistinctChains(dir)
    ensures chain in GetAllDeployedChains(dir) <==> Lookup(dir, chain).Some?
    ensures forall i, j :: 0 <= i < j < |dir| ==> GetAllDeployedChains(dir)[i] != GetAllDeployedChains(dir)[j]
  {
    var chains := GetAllDeployedChains(dir);
    if chain in chains {
      var i :| 0 <= i < |chains| && chains[i] == chain;
      assert dir[i].chain == chain;
    }
  }

  /** A chain whose address can be looked up is among the deployed chains. */
  lemma AvailableChainIsDeployed(dir: seq<Deployment>, chain: string)
    requires DistinctChains(dir)
    ensures GetAnonAuthoriserAddress(dir, chain).Success? ==> chain in GetAllDeployedChains(dir)
  {
    DeployedChainsAreTheKeys(dir, chain);
  }
}
