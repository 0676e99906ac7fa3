/** The registry of collections enrolled in the program: membership by
    address, the first entry with an address, and address uniqueness. */
module Registry {
  import opened Types

  /** Some entry carries `addr` (the handlers' `any` test), which is the
      same as testing the entries front to back. */
  predicate IsRegistered(infos: seq<ContractInfo>, addr: Addr)
    ensures IsRegistered(infos, addr) <==>
              infos != [] && (infos[0].address == addr || IsRegistered(infos[1..], addr))
    decreases |infos|
  {
    exists i :: 0 <= i < |infos| && infos[i].address == addr
  }

  /** No two entries share an address. */
  predicate Unique(infos: seq<ContractInfo>) {
    forall i, j :: 0 <= i < j < |infos| ==> infos[i].address != infos[j].address
  }

  /** The position of the first entry carrying `addr` (the handlers' `find`). */
  function FindIndex(infos: seq<ContractInfo>, addr: Addr): (i: nat)
    requires IsRegistered(infos, addr)
    ensures i < |infos| && infos[i].address == addr
    ensures forall j :: 0 <= j < i ==> infos[j].address != addr
  {
    if infos[0].address == addr then 0
    else
      assert exists j :: 0 <= j < |infos[1..]| && infos[1..][j].address == addr by {
        var k :| 0 <= k < |infos| && infos[k].address == addr;
        assert infos[1..][k - 1] == infos[k];
      }
      1 + FindIndex(infos[1..], addr)
  }

  /** Scans the registry front to back for `addr`. */
  method IndexOf(infos: seq<ContractInfo>, addr: Addr) returns (found: bool, i: nat)
    ensures found <==> IsRegistered(infos, addr)
    ensures found ==> i == FindIndex(infos, addr)
  {
    i := 0;
    while i < |infos|
      invariant i <= |infos|
      invariant forall j :: 0 <= j < i ==> infos[j].address != addr
    {
      if infos[i].address == addr {
        return true, i;
      }
      i := i + 1;
    }
    return false, 0;
  }
}
