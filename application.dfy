/**
  The parameter records of application/test.go: the state schemas that
  `AppCreate` declares, the base `AddMethodCallParams` that `AppCall` fills
  in for the caller, and `combine`, which returns a copy of such a record
  with the method, its arguments and its box references replaced.

  Go passes these structs by value; Dafny datatypes are values, so the
  record a caller hands to `Combine` is never changed by it.
 */
module Application {
  import opened SdkTypes

  type Uint64 = n: int | 0 <= n < 0x1_0000_0000_0000_0000
  type Uint32 = n: int | 0 <= n < 0x1_0000_0000

  /** types.StateSchema: how many integer and byte-slice slots an application may use. */
  datatype StateSchema = StateSchema(numUint: Uint64, numByteSlice: Uint64)

  /** The global and local schemas passed together when an application is created. */
  datatype Schemas = Schemas(global: StateSchema, local: StateSchema)

  /** The total number of slots a schema declares. */
  function Capacity(s: StateSchema): nat {
    s.numUint + s.numByteSlice
  }

  /** The four counts AppCreate declares. */
  const LocalInts: Uint64 := 0
  const LocalBytes: Uint64 := 0
  const GlobalInts: Uint64 := 0
  const GlobalBytes: Uint64 := 0

  /**
    The schema literals of AppCreate: the global schema from the global
    counts and the local schema from the local counts, neither swapped.
   */
  function DeclareSchemas(localInts: Uint64, localBytes: Uint64, globalInts: Uint64, globalBytes: Uint64): (s: Schemas)
    ensures s.global.numUint == globalInts && s.global.numByteSlice == globalBytes
    ensures s.local.numUint == localInts && s.local.numByteSlice == localBytes
    ensures Capacity(s.global) + Capacity(s.local) == localInts + localBytes + globalInts + globalBytes
  {
    Schemas(StateSchema(globalInts, globalBytes), StateSchema(localInts, localBytes))
  }

  /** The schemas AppCreate actually declares: zero capacity in all four slots. */
  function AppCreateSchemas(): (s: Schemas)
    ensures s.global == StateSchema(0, 0) && s.local == StateSchema(0, 0)
  {
    DeclareSchemas(LocalInts, LocalBytes, GlobalInts, GlobalBytes)
  }

  /** AppCreate's schemas declare zero capacity in all four slots. */
  lemma AppCreateSchemasHaveZeroCapacity()
    ensures Capacity(AppCreateSchemas().global) == 0
    ensures Capacity(AppCreateSchemas().local) == 0
  {
    var s := AppCreateSchemas();
    assert s.global == s.local == StateSchema(0, 0);
  }

  /** types.OnCompletion; NoOpOC is the zero value. */
  datatype OnCompletion =
    | NoOp
    | OptIn
    | CloseOut
    | ClearState
    | UpdateApplication
    | DeleteApplication

  /** types.SuggestedParams, as fetched from the node. */
  datatype SuggestedParams = SuggestedParams(
    fee: Uint64,
    genesisID: string,
    genesisHash: seq<bv8>,
    firstRoundValid: Uint64,
    lastRoundValid: Uint64,
    consensusVersion: string,
    flatFee: bool,
    minFee: Uint64)

  const ZeroSuggestedParams: SuggestedParams := SuggestedParams(0, "", [], 0, 0, "", false, 0)

  /** abi.Arg, abi.Return and abi.Method: a method descriptor of a contract. */
  datatype MethodArg = MethodArg(name: string, typeName: string, desc: string)
  datatype MethodReturn = MethodReturn(typeName: string, desc: string)
  datatype Method = Method(name: string, desc: string, args: seq<MethodArg>, result: MethodReturn)

  const ZeroMethod: Method := Method("", "", [], MethodReturn("", ""))

  /** The argument values a method call carries (`interface{}` in Go). */
  datatype ArgValue =
    | StringArg(s: string)
    | UintArg(n: Uint64)
    | BytesArg(b: seq<bv8>)

  /** types.AppBoxReference */
  datatype AppBoxReference = AppBoxReference(appID: Uint64, name: seq<bv8>)

  /** transaction.TransactionSigner: nil, or a BasicAccountTransactionSigner. */
  datatype TransactionSigner =
    | NilSigner
    | BasicAccountSigner(account: Account)

  /** transaction.AddMethodCallParams */
  datatype AddMethodCallParams = AddMethodCallParams(
    appID: Uint64,
    abiMethod: Method,
    methodArgs: seq<ArgValue>,
    sender: Address,
    suggestedParams: SuggestedParams,
    onComplete: OnCompletion,
    approvalProgram: seq<bv8>,
    clearProgram: seq<bv8>,
    globalSchema: StateSchema,
    localSchema: StateSchema,
    extraPages: Uint32,
    foreignAccounts: seq<string>,
    foreignApps: seq<Uint64>,
    foreignAssets: seq<Uint64>,
    boxReferences: seq<AppBoxReference>,
    note: seq<bv8>,
    lease: seq<bv8>,
    rekeyTo: Address,
    signer: TransactionSigner)

  /** The zero value `transaction.AddMethodCallParams{}`: every field holds Go's zero value. */
  function ZeroCallParams(): (r: AddMethodCallParams)
    ensures r.appID == 0 && r.abiMethod == ZeroMethod && r.methodArgs == []
    ensures r.sender == ZeroAddress() && r.suggestedParams == ZeroSuggestedParams && r.onComplete == NoOp
    ensures r.approvalProgram == [] && r.clearProgram == []
    ensures r.globalSchema == StateSchema(0, 0) && r.localSchema == StateSchema(0, 0) && r.extraPages == 0
    ensures r.foreignAccounts == [] && r.foreignApps == [] && r.foreignAssets == [] && r.boxReferences == []
    ensures r.note == [] && |r.lease| == 32 && (forall i :: 0 <= i < |r.lease| ==> r.lease[i] == 0)
    ensures r.rekeyTo == ZeroAddress() && r.signer == NilSigner
  {
    AddMethodCallParams(
      0, ZeroMethod, [], ZeroAddress(), ZeroSuggestedParams, NoOp, [], [],
      StateSchema(0, 0), StateSchema(0, 0), 0, [], [], [], [], [],
      seq(32, _ => 0), ZeroAddress(), NilSigner)
  }

  /** `p` and `q` agree on every field except the method, its arguments and its boxes. */
  predicate SameOutsideMethodCall(p: AddMethodCallParams, q: AddMethodCallParams) {
    p.appID == q.appID
    && p.sender == q.sender
    && p.suggestedParams == q.suggestedParams
    && p.onComplete == q.onComplete
    && p.approvalProgram == q.approvalProgram
    && p.clearProgram == q.clearProgram
    && p.globalSchema == q.globalSchema
    && p.localSchema == q.localSchema
    && p.extraPages == q.extraPages
    && p.foreignAccounts == q.foreignAccounts
    && p.foreignApps == q.foreignApps
    && p.foreignAssets == q.foreignAssets
    && p.note == q.note
    && p.lease == q.lease
    && p.rekeyTo == q.rekeyTo
    && p.signer == q.signer
  }

  /** The record's signer signs for the record's sender. */
  predicate SignerMatchesSender(p: AddMethodCallParams) {
    p.signer.BasicAccountSigner? && p.signer.account.address == p.sender
  }

  /**
    combine: a copy of `mcp` calling `m` with the arguments `a` and the box
    references `boxes`, both in the order given (no boxes: an empty list);
    every other field is that of `mcp`.
   */
  function Combine(mcp: AddMethodCallParams, m: Method, a: seq<ArgValue>, boxes: seq<AppBoxReference>): (r: AddMethodCallParams)
    ensures r.abiMethod == m && r.methodArgs == a && r.boxReferences == boxes
    ensures SameOutsideMethodCall(r, mcp)
  {
    mcp.(abiMethod := m, methodArgs := a, boxReferences := boxes)
  }

  /** The contract of Combine leaves no freedom: it determines the record. */
  lemma CombineDetermined(mcp: AddMethodCallParams, m: Method, a: seq<ArgValue>, boxes: seq<AppBoxReference>, r: AddMethodCallParams)
    requires r.abiMethod == m && r.methodArgs == a && r.boxReferences == boxes
    requires SameOutsideMethodCall(r, mcp)
    ensures r == Combine(mcp, m, a, boxes)
  {
  }

  /** Combining twice is combining once with the later method, arguments and boxes. */
  lemma CombineLastWins(
    mcp: AddMethodCallParams,
    m1: Method, a1: seq<ArgValue>, b1: seq<AppBoxReference>,
    m2: Method, a2: seq<ArgValue>, b2: seq<AppBoxReference>)
    ensures Combine(Combine(mcp, m1, a1, b1), m2, a2, b2) == Combine(mcp, m2, a2, b2)
  {
  }

  /** Combining a record with its own method, arguments and boxes gives the record back. */
  lemma CombineOwnFieldsIsIdentity(mcp: AddMethodCallParams)
    ensures Combine(mcp, mcp.abiMethod, mcp.methodArgs, mcp.boxReferences) == mcp
  {
  }

  /**
    The base parameters of AppCall: the application id, the caller's address
    as sender, the suggested parameters, NoOp on completion and a signer for
    the caller's account; every other field keeps its zero value.
   */
  function BaseCallParams(appID: Uint64, caller: Account, sp: SuggestedParams): (r: AddMethodCallParams)
    ensures r.appID == appID && r.sender == caller.address && r.suggestedParams == sp
    ensures r.onComplete == NoOp && r.signer == BasicAccountSigner(caller)
    ensures r.(appID := 0, sender := ZeroAddress(), suggestedParams := ZeroSuggestedParams, signer := NilSigner)
      == ZeroCallParams()
    ensures SignerMatchesSender(r)
  {
    ZeroCallParams().(appID := appID, sender := caller.address, suggestedParams := sp,
                      onComplete := NoOp, signer := BasicAccountSigner(caller))
  }

  /** Combine keeps the signer and the sender, so a signer that matches keeps matching. */
  lemma CombineKeepsSigner(mcp: AddMethodCallParams, m: Method, a: seq<ArgValue>, boxes: seq<AppBoxReference>)
    ensures SignerMatchesSender(Combine(mcp, m, a, boxes)) <==> SignerMatchesSender(mcp)
  {
  }

  /**
    The call AppCall composes: the base parameters combined with the
    contract's `hello` method, the single argument "success" and no boxes.
   */
  function HelloCallParams(appID: Uint64, caller: Account, sp: SuggestedParams, hello: Method): (r: AddMethodCallParams)
    ensures r.abiMethod == hello && r.methodArgs == [StringArg("success")] && r.boxReferences == []
    ensures r.appID == appID && r.sender == caller.address && r.suggestedParams == sp
    ensures r.onComplete == NoOp && SignerMatchesSender(r)
    ensures SameOutsideMethodCall(r, BaseCallParams(appID, caller, sp))
  {
    Combine(BaseCallParams(appID, caller, sp), hello, [StringArg("success")], [])
  }
}
