/** The fault scenario catalog: the three labels of the scenario picker, the
    `params` each one selects (by ordered substring tests on the label), and
    the fixed JSON-RPC 2.0 envelope the simulator sends. */
module Scenarios {
  import opened Wrappers
  import opened Text
  import opened Json

  // The picker's labels, emoji first (U+1F4C9, U+1F4B0, U+26FD). Each is a
  // concatenation of short literals so the verifier can read its characters
  // when it decides which keys a label contains.
  const ExecutionRevertedLabel: string := "\U{1F4C9} " + "Execution Reverted" + " (Smart Contract Logic)"
  const InsufficientFundsLabel: string := "\U{1F4B0} " + "Insufficient Funds" + " (Gas/Value)"
  const IntrinsicGasLabel: string := "\U{26FD} " + "Intrinsic Gas" + " Too Low" + " (Invalid Params)"

  /** The picker's options, in order. */
  const Labels: seq<string> := [ExecutionRevertedLabel, InsufficientFundsLabel, IntrinsicGasLabel]

  /** The substrings tested, in the order the branches test them. */
  const Keys: seq<string> := ["Execution Reverted", "Insufficient Funds", "Intrinsic Gas"]

  const ZeroAddress: string := "0x0000000000000000000000000000000000000000"
  const UsdtAddress: string := "0xdAC17F958D2ee523a2206206994597C13D831ec7"
  const EmptyWallet: string := "0x1111111111111111111111111111111111111111"
  const Recipient: string := "0x2222222222222222222222222222222222222222"

  /** One call object for `eth_estimateGas`: sender, recipient and one more field. */
  function Call(from: string, to: string, field: string, amount: string): Json
  {
    JObj([("from", JStr(from)), ("to", JStr(to)), (field, JStr(amount))])
  }

  /** The `params` of each scenario, in the order of `Keys`: 1 ETH from the
      zero address to the USDT contract; 100 ETH from an empty wallet; a gas
      limit of 10 for a call to the USDT contract. */
  const Params: seq<seq<Json>> := [
    [Call(ZeroAddress, UsdtAddress, "value", "0xDE0B6B3A7640000")],
    [Call(EmptyWallet, Recipient, "value", "0x56BC75E2D63100000")],
    [Call(ZeroAddress, UsdtAddress, "gas", "0xA")]
  ]

  /** The first key, at `k` or later, that occurs in `scenario`. */
  function FirstKey(scenario: string, k: nat): (r: Option<nat>)
    requires k <= |Keys|
    ensures r.Some? ==> k <= r.value < |Keys| && Contains(scenario, Keys[r.value])
    ensures r.Some? ==> forall k' :: k <= k' < r.value ==> !Contains(scenario, Keys[k'])
    ensures r.None? ==> forall k' :: k <= k' < |Keys| ==> !Contains(scenario, Keys[k'])
    decreases |Keys| - k
  {
    if k == |Keys| then None
    else if Contains(scenario, Keys[k]) then Some(k)
    else FirstKey(scenario, k + 1)
  }

  /** The catalog as a table: the `params` of the first key in the label, or
      none when no key occurs (then `payload_params` is never bound). */
  function Dispatch(scenario: string): (r: Option<seq<Json>>)
    ensures r.Some? <==> exists k :: 0 <= k < |Keys| && Contains(scenario, Keys[k])
    ensures forall k :: (0 <= k < |Keys| && Contains(scenario, Keys[k]) &&
      forall k' :: 0 <= k' < k ==> !Contains(scenario, Keys[k'])) ==> r == Some(Params[k])
  {
    match FirstKey(scenario, 0)
    case Some(k) => Some(Params[k])
    case None => None
  }

  /** The `if`/`elif` chain that binds `payload_params`. */
  method ChooseParams(scenario: string) returns (params: Option<seq<Json>>)
    ensures params == Dispatch(scenario)
  {
    params := None;
    if Contains(scenario, "Execution Reverted") {
      params := Some([Call(ZeroAddress, UsdtAddress, "value", "0xDE0B6B3A7640000")]);
    } else if Contains(scenario, "Insufficient Funds") {
      params := Some([Call(EmptyWallet, Recipient, "value", "0x56BC75E2D63100000")]);
    } else if Contains(scenario, "Intrinsic Gas") {
      params := Some([Call(ZeroAddress, UsdtAddress, "gas", "0xA")]);
    }
  }

  /** A character of an occurrence is a character of the text. */
  lemma OccurrenceChars(s: string, sub: string, c: char)
    requires Contains(s, sub) && c in sub
    ensures c in s
  {
    var k: nat :| OccursAt(s, sub, k);
    var m :| 0 <= m < |sub| && sub[m] == c;
    assert s[k + m] == sub[m];
  }

  lemma ExecutionRevertedKeys()
    ensures Contains(ExecutionRevertedLabel, Keys[0])
    ensures !Contains(ExecutionRevertedLabel, Keys[1]) && !Contains(ExecutionRevertedLabel, Keys[2])
  {
    assert OccursAt(ExecutionRevertedLabel, Keys[0], 2);
    // Keys 1 and 2 hold an 'I', which this label lacks.
    assert 'I' in Keys[1] && 'I' in Keys[2] && 'I' !in ExecutionRevertedLabel;
    if Contains(ExecutionRevertedLabel, Keys[1]) { OccurrenceChars(ExecutionRevertedLabel, Keys[1], 'I'); }
    if Contains(ExecutionRevertedLabel, Keys[2]) { OccurrenceChars(ExecutionRevertedLabel, Keys[2], 'I'); }
  }

  lemma InsufficientFundsKeys()
    ensures Contains(InsufficientFundsLabel, Keys[1])
    ensures !Contains(InsufficientFundsLabel, Keys[0]) && !Contains(InsufficientFundsLabel, Keys[2])
  {
    assert OccursAt(InsufficientFundsLabel, Keys[1], 2);
    // Key 0 holds an 'x' and key 2 an 'r', which this label lacks.
    assert 'x' in Keys[0] && 'r' in Keys[2] && 'x' !in InsufficientFundsLabel && 'r' !in InsufficientFundsLabel;
    if Contains(InsufficientFundsLabel, Keys[0]) { OccurrenceChars(InsufficientFundsLabel, Keys[0], 'x'); }
    if Contains(InsufficientFundsLabel, Keys[2]) { OccurrenceChars(InsufficientFundsLabel, Keys[2], 'r'); }
  }

  lemma IntrinsicGasKeys()
    ensures Contains(IntrinsicGasLabel, Keys[2])
    ensures !Contains(IntrinsicGasLabel, Keys[0]) && !Contains(IntrinsicGasLabel, Keys[1])
  {
    assert OccursAt(IntrinsicGasLabel, Keys[2], 2);
    // Key 0 holds an 'x' and key 1 an 'F', which this label lacks.
    assert 'x' in Keys[0] && 'F' in Keys[1] && 'x' !in IntrinsicGasLabel && 'F' !in IntrinsicGasLabel;
    if Contains(IntrinsicGasLabel, Keys[0]) { OccurrenceChars(IntrinsicGasLabel, Keys[0], 'x'); }
    if Contains(IntrinsicGasLabel, Keys[1]) { OccurrenceChars(IntrinsicGasLabel, Keys[1], 'F'); }
  }

  /** Each picker label contains its own key and no other, so it selects
      exactly one branch: the `params` in the same row of the table. */
  lemma LabelSelectsOwnScenario(k: nat)
    requires k < |Labels|
    ensures forall k' :: 0 <= k' < |Keys| ==> (Contains(Labels[k], Keys[k']) <==> k == k')
    ensures Dispatch(Labels[k]) == Some(Params[k])
  {
    ExecutionRevertedKeys();
    InsufficientFundsKeys();
    IntrinsicGasKeys();
  }

  /** The request body `{"jsonrpc": "2.0", "method": "eth_estimateGas",
      "params": params, "id": 1}`. */
  function Envelope(params: seq<Json>): (r: Json)
    ensures r.JObj?
    ensures Get(r.fields, "jsonrpc") == JStr("2.0")
    ensures Get(r.fields, "method") == JStr("eth_estimateGas")
    ensures Get(r.fields, "params") == JArr(params)
    ensures Get(r.fields, "id") == JNum(1)
  {
    var fields := [("jsonrpc", JStr("2.0")), ("method", JStr("eth_estimateGas")), ("params", JArr(params)), ("id", JNum(1))];
    GetUniqueKey(fields, 0, "jsonrpc");
    GetUniqueKey(fields, 1, "method");
    GetUniqueKey(fields, 2, "params");
    GetUniqueKey(fields, 3, "id");
    JObj(fields)
  }
}
