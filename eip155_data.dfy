/**
 * The static EVM chain and method tables of src/data/eip155.ts. A table is the list of the
 * object's entries in insertion order, as `Object.keys` and the spread operator see it.
 */
module Eip155Data {
  import opened Wrappers
  import opened Rpc

  datatype Eip155Chain = Eip155Chain(chainId: nat, rpc: string)

  datatype Entry = Entry(key: string, chain: Eip155Chain)

  type Table = seq<Entry>

  const MAINNET_CHAINS: Table := [Entry("eip155:295", Eip155Chain(295, "https://mainnet.hashio.io/api"))]

  const TEST_CHAINS: Table := [Entry("eip155:296", Eip155Chain(296, "https://testnet.hashio.io/api"))]

  /** `{ ...EIP155_MAINNET_CHAINS, ...EIP155_TEST_CHAINS }` (disjoint keys, so plain concatenation). */
  const CHAINS: Table := MAINNET_CHAINS + TEST_CHAINS

  /** `Object.keys(table)`. */
  function Keys(t: Table): (keys: seq<string>)
  {
    seq(|t|, i requires 0 <= i < |t| => t[i].key)
  }

  /** `table[key]`; a later entry wins, as with the spread operator. */
  function Lookup(t: Table, key: string): (r: Option<Eip155Chain>)
  {
    if |t| == 0 then None
    else if t[|t| - 1].key == key then Some(t[|t| - 1].chain)
    else Lookup(t[..|t| - 1], key)
  }

  /** The table the providers pick for a network. */
  function ChainsFor(n: Network): (t: Table)
  {
    if n == Testnet then TEST_CHAINS else MAINNET_CHAINS
  }

  /** The CAIP-2 chain id of an EVM chain: `eip155:` followed by the decimal chain id. */
  function Caip2(chainId: nat): (s: string)
  {
    "eip155:" + Decimal(chainId)
  }

  function Decimal(n: nat): (s: string)
  {
    if n < 10 then [('0' as int + n) as char] else Decimal(n / 10) + [('0' as int + n % 10) as char]
  }

  /** The mainnet table holds exactly `eip155:295`, chain 295; the test table exactly `eip155:296`, chain 296. */
  lemma TablesContents()
    ensures Keys(MAINNET_CHAINS) == ["eip155:295"] && Lookup(MAINNET_CHAINS, "eip155:295").value.chainId == 295
    ensures Keys(TEST_CHAINS) == ["eip155:296"] && Lookup(TEST_CHAINS, "eip155:296").value.chainId == 296
  {
  }

  /** Every key of the combined table is the CAIP-2 form of its own chain id. */
  lemma KeysAreCaip2()
    ensures forall e :: e in CHAINS ==> e.key == Caip2(e.chain.chainId)
  {
    assert Decimal(295) == "295" by {
      assert Decimal(29) == "29" by { assert Decimal(2) == "2"; }
    }
    assert Decimal(296) == "296" by {
      assert Decimal(29) == "29" by { assert Decimal(2) == "2"; }
    }
  }

  /** The combined table is the union of the two, with disjoint keys, so no entry is overridden. */
  lemma ChainsIsDisjointUnion(key: string)
    ensures Lookup(CHAINS, key).Some? <==> key in Keys(MAINNET_CHAINS) || key in Keys(TEST_CHAINS)
    ensures key in Keys(MAINNET_CHAINS) ==> key !in Keys(TEST_CHAINS) && Lookup(CHAINS, key) == Lookup(MAINNET_CHAINS, key)
    ensures key in Keys(TEST_CHAINS) ==> Lookup(CHAINS, key) == Lookup(TEST_CHAINS, key)
  {
    assert |CHAINS| == 2 && CHAINS[1] == TEST_CHAINS[0] && CHAINS[..1] == MAINNET_CHAINS;
    assert Keys(MAINNET_CHAINS) == ["eip155:295"] && Keys(TEST_CHAINS) == ["eip155:296"];
    assert Lookup(MAINNET_CHAINS, key) == if key == "eip155:295" then Some(MAINNET_CHAINS[0].chain) else None by {
      assert MAINNET_CHAINS[..0] == [];
    }
    assert Lookup(TEST_CHAINS, key) == if key == "eip155:296" then Some(TEST_CHAINS[0].chain) else None by {
      assert TEST_CHAINS[..0] == [];
    }
  }

  /** Each network's table has one chain, and it is not in the other network's table. */
  lemma OneChainPerNetwork(n: Network)
    ensures |Keys(ChainsFor(n))| == 1
    ensures forall k :: k in Keys(ChainsFor(n)) ==> k !in Keys(ChainsFor(if n == Testnet then Mainnet else Testnet))
  {
  }

  // ----------------------------------------------------------------- methods

  /** `EIP155_METHODS`. */
  datatype Method =
    | PersonalSign | Sign | SignTransaction | SignTypedData | SignTypedDataV3 | SignTypedDataV4
    | SendRawTransaction | SendTransaction

  function MethodName(m: Method): (name: string)
  {
    match m
    case PersonalSign => "personal_sign"
    case Sign => "eth_sign"
    case SignTransaction => "eth_signTransaction"
    case SignTypedData => "eth_signTypedData"
    case SignTypedDataV3 => "eth_signTypedData_v3"
    case SignTypedDataV4 => "eth_signTypedData_v4"
    case SendRawTransaction => "eth_sendRawTransaction"
    case SendTransaction => "eth_sendTransaction"
  }

  /** `Object.values(EIP155_METHODS)`, in declaration order. */
  const METHOD_NAMES: seq<string> := [
    MethodName(PersonalSign), MethodName(Sign), MethodName(SignTransaction), MethodName(SignTypedData),
    MethodName(SignTypedDataV3), MethodName(SignTypedDataV4), MethodName(SendRawTransaction),
    MethodName(SendTransaction)]

  /** The enum member with a given string value, if any. */
  function MethodOf(name: string): (r: Option<Method>)
    ensures r.Some? ==> MethodName(r.value) == name
    ensures r.None? ==> name !in METHOD_NAMES
  {
    if name == "personal_sign" then Some(PersonalSign)
    else if name == "eth_sign" then Some(Sign)
    else if name == "eth_signTransaction" then Some(SignTransaction)
    else if name == "eth_signTypedData" then Some(SignTypedData)
    else if name == "eth_signTypedData_v3" then Some(SignTypedDataV3)
    else if name == "eth_signTypedData_v4" then Some(SignTypedDataV4)
    else if name == "eth_sendRawTransaction" then Some(SendRawTransaction)
    else if name == "eth_sendTransaction" then Some(SendTransaction)
    else None
  }

  /** The enum has 8 pairwise-distinct values, and every value names exactly its member. */
  lemma MethodNamesDistinct()
    ensures |METHOD_NAMES| == 8
    ensures forall i, j :: 0 <= i < j < |METHOD_NAMES| ==> METHOD_NAMES[i] != METHOD_NAMES[j]
    ensures forall m :: MethodName(m) in METHOD_NAMES && MethodOf(MethodName(m)) == Some(m)
  {
  }
}
