/** The data of the ledger: tokens, accounts, the state of one shard, and the configuration all shards share. */
module Tokens {
  import opened Bytes
  import opened Results

  type Address = bytes

  const METACHAIN := 0xFFFF_FFFF
  const FUNGIBLE := 0
  const NON_FUNGIBLE := 1
  const MAX_ROYALTY := 10000
  const MAX_LENGTH_FOR_VALUE := 32
  const EXISTS_ON_SHARD: byte := 1

  datatype MetaData = MetaData(nonce: nat, name: bytes, creator: Address, royalties: nat, hash: bytes,
                               uris: seq<bytes>, attributes: bytes)

  datatype DCToken = DCToken(kind: nat, value: int, properties: bytes, metadata: Option<MetaData>, reserved: bytes)

  const NO_TOKEN := DCToken(FUNGIBLE, 0, [], None, [])

  /** The token entries of an account by storage key; a missing entry is an empty value in the account's trie. */
  type Store = map<bytes, DCToken>

  datatype Account = Account(tokens: Store, nonces: map<bytes, nat>, roles: map<bytes, seq<bytes>>)

  const NO_ACCOUNT := Account(map[], map[], map[])

  datatype Settings = Settings(paused: bool, limitedTransfer: bool, burnForAll: bool)

  const NO_SETTINGS := Settings(false, false, false)

  function Bit(b: bool, weight: nat): nat {
    if b then weight else 0
  }

  /** DCTGlobalMetadata.ToBytes */
  function SettingsBytes(x: Settings): (b: bytes)
    ensures |b| == 2
  {
    [Bit(x.paused, 1) + Bit(x.limitedTransfer, 2) + Bit(x.burnForAll, 4), 0]
  }

  /** DCTGlobalMetadataFromBytes */
  function SettingsFromBytes(b: bytes): Settings {
    if |b| != 2 then NO_SETTINGS else Settings(b[0] % 2 == 1, b[0] / 2 % 2 == 1, b[0] / 4 % 2 == 1)
  }

  /** One shard: its accounts, and the three kinds of entries in its system account. */
  datatype ShardState = ShardState(accounts: map<Address, Account>, system: Store,
                                   settings: map<bytes, bytes>, transferAddresses: map<bytes, seq<Address>>)

  const EMPTY_SHARD := ShardState(map[], map[], map[], map[])

  datatype Flags = Flags(saveToSystem: bool, sendAlways: bool, fixOldLiquidity: bool, checkFrozenCollection: bool,
                         checkTransfer: bool, transferToMeta: bool, checkCorrectTokenId: bool, wipeLiquidity: bool,
                         valueLength: bool, checkFunctionArgument: bool, transferRoleAddresses: bool)

  datatype Costs = Costs(nftTransfer: nat, multiTransfer: nat, dctTransfer: nat, nftCreate: nat, addQuantity: nat,
                         burn: nat, addUri: nat, updateAttributes: nat, localMint: nat, localBurn: nat,
                           storePerByte: nat, dataCopyPerByte: nat)

  /** The shard coordinator, the marshaller, the flags and the gas schedule. */
  datatype Config = Config(self: nat, numShards: nat, shardOf: Address -> nat,
                           marshal: DCToken -> bytes, unmarshal: bytes -> Option<DCToken>,
                           flags: Flags, costs: Costs, keyPrefix: bytes, systemContract: Address, maxMintLength: nat)
  {
    predicate SameShard(a: Address, b: Address) {
      shardOf(a) == shardOf(b)
    }

    predicate Here(a: Address) {
      shardOf(a) == self
    }

    /** What is assumed of the marshaller. */
    ghost predicate GoodMarshaller() {
      && (forall t :: unmarshal(marshal(t)) == Some(t))
      && (forall t :: marshal(t) != [0])
      && (forall t: DCToken :: t.metadata.Some? ==> |marshal(t)| > MAX_LENGTH_FOR_VALUE)
    }

    /** What is assumed of the shard coordinator. */
    ghost predicate GoodShards() {
      numShards < METACHAIN && forall a :: shardOf(a) < numShards || shardOf(a) == METACHAIN
    }
  }

  datatype CallType = DirectCall | AsynchronousCallBack | ExecOnDestByCaller

  /** vmcommon.ContractCallInput; ret is ReturnCallAfterError, payable is what CheckPayable finds for the call. */
  datatype Call = Call(caller: Address, recipient: Address, callValue: int, args: seq<bytes>,
                       gasProvided: nat, ret: bool, callType: CallType, payable: bool)

  datatype OutTransfer = OutTransfer(sender: Address, recipient: Address, data: bytes, gasLimit: nat)

  /** vmcommon.VMOutput: the gas left and the emitted transfer, if any. */
  datatype Output = Output(gasRemaining: nat, transfer: Option<OutTransfer>)

  function Ascii(s: string): bytes {
    seq(|s|, i requires 0 <= i < |s| => s[i] as int % 256)
  }

  const DCT_TRANSFER := Ascii("DCTTransfer")
  const NFT_TRANSFER := Ascii("DCTNFTTransfer")
  const MULTI_TRANSFER := Ascii("MultiDCTNFTTransfer")
  const CREATE_ROLE_TRANSFER := Ascii("DCTNFTCreateRoleTransfer")

  const ROLE_NFT_CREATE := Ascii("DCTRoleNFTCreate")
  const ROLE_NFT_CREATE_MULTI_SHARD := Ascii("DCTRoleNFTCreateMultiShard")
  const ROLE_NFT_ADD_QUANTITY := Ascii("DCTRoleNFTAddQuantity")
  const ROLE_NFT_BURN := Ascii("DCTRoleNFTBurn")
  const ROLE_NFT_ADD_URI := Ascii("DCTRoleNFTAddURI")
  const ROLE_NFT_UPDATE_ATTRIBUTES := Ascii("DCTRoleNFTUpdateAttributes")
  const ROLE_LOCAL_MINT := Ascii("DCTRoleLocalMint")
  const ROLE_LOCAL_BURN := Ascii("DCTRoleLocalBurn")
  const ROLE_TRANSFER := Ascii("DCTRoleTransfer")

  /** IsSmartContractAddress: eight leading zero bytes, or nothing but zeros. */
  predicate IsSmartContract(a: Address) {
    |a| > 10 && forall i :: 0 <= i < 8 ==> a[i] == 0
  }

  /** IsSystemAccountAddress: thirty bytes 255, whatever follows. */
  predicate IsSystemAccount(a: Address) {
    |a| >= 30 && forall i :: 0 <= i < 30 ==> a[i] == 255
  }

  /** Contracts begin with eight zero bytes, system accounts with thirty bytes 255. */
  lemma AddressForms(a: Address)
    ensures IsSmartContract(a) <==> |a| > 10 && a[..8] == [0, 0, 0, 0, 0, 0, 0, 0]
    ensures IsSystemAccount(a) <==> |a| >= 30 && a[..30] == seq(30, i => 255)
  {
    if |a| > 10 && a[..8] == [0, 0, 0, 0, 0, 0, 0, 0] {
      assert forall i :: 0 <= i < 8 ==> a[i] == a[..8][i] == 0;
    }
    if |a| >= 30 && a[..30] == seq(30, i => 255) {
      assert forall i :: 0 <= i < 30 ==> a[i] == a[..30][i];
    }
  }

  function AccountAt(s: ShardState, a: Address): Account {
    if a in s.accounts then s.accounts[a] else NO_ACCOUNT
  }

  function Entry(s: ShardState, a: Address, k: bytes): Option<DCToken> {
    var tokens := AccountAt(s, a).tokens;
    if k in tokens then Some(tokens[k]) else None
  }

  function Balance(s: ShardState, a: Address, k: bytes): int {
    match Entry(s, a, k)
    case Some(t) => t.value
    case None => 0
  }

  /** SaveKeyValue on a user account; storing nothing deletes the entry. */
  function Put(s: ShardState, a: Address, k: bytes, e: Option<DCToken>): ShardState {
    var acc := AccountAt(s, a);
    var tokens := match e case Some(t) => acc.tokens[k := t] case None => acc.tokens - {k};
    s.(accounts := s.accounts[a := acc.(tokens := tokens)])
  }

  /** SaveKeyValue on the system account. */
  function PutSystem(s: ShardState, k: bytes, e: Option<DCToken>): ShardState {
    s.(system := match e case Some(t) => s.system[k := t] case None => s.system - {k})
  }

  function PutNonce(s: ShardState, a: Address, token: bytes, nonce: nat): ShardState {
    var acc := AccountAt(s, a);
    s.(accounts := s.accounts[a := acc.(nonces := acc.nonces[token := nonce])])
  }

  function PutRoles(s: ShardState, a: Address, token: bytes, roles: seq<bytes>): ShardState {
    var acc := AccountAt(s, a);
    s.(accounts := s.accounts[a := acc.(roles := acc.roles[token := roles])])
  }

  /** getGlobalMetadata */
  function SettingsOf(s: ShardState, k: bytes): Settings {
    if k in s.settings then SettingsFromBytes(s.settings[k]) else NO_SETTINGS
  }

  function RolesOf(s: ShardState, a: Address, token: bytes): seq<bytes> {
    var roles := AccountAt(s, a).roles;
    if token in roles then roles[token] else []
  }

  function LatestNonce(s: ShardState, a: Address, token: bytes): nat {
    var nonces := AccountAt(s, a).nonces;
    if token in nonces then nonces[token] else 0
  }

  /** dctRoles.CheckAllowedToExecute */
  function CheckAllowed(s: ShardState, a: Address, token: bytes, role: bytes): Result<()> {
    Need(role in RolesOf(s, a, token), ActionNotAllowed)
  }
}
