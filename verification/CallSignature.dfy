/** The signature of a tool call. */
module CallSignature {
  // The hash of its tool id and its printed arguments (server/agentRuntime.ts:474-499).

  import opened CallHash
  import opened CodeUnits
  import StableJson

  /** `args ?? {}` */
  function ArgsOrEmpty(args: StableJson.Value): StableJson.Value {
    if args.Null? || args.Undefined? then StableJson.Obj([]) else args
  }

  /** The tool's id, two colons, the printed arguments. */
  function CallText(tool: Text, args: StableJson.Value): Text {
    tool + [COLON, COLON] + StableJson.Stable(ArgsOrEmpty(args))
  }

  function Signature(tool: Text, args: StableJson.Value): string {
    ToHex(Fnv(CallText(tool, args)))
  }

  /** `hashToolCall` */
  method SignToolCall(tool: Text, args: StableJson.Value) returns (signature: string)
    ensures signature == Signature(tool, args)
  {
    var h := HashToolCall(CallText(tool, args));
    signature := ToHex(h);
  }

  ghost predicate SameArgs(args: StableJson.Value, args': StableJson.Value) {
    StableJson.Equiv(ArgsOrEmpty(args), ArgsOrEmpty(args'))
  }

  /** Ids without colons end at the first one. */
  lemma SameId(tool: Text, tool': Text, a: Text, b: Text)
    requires COLON !in tool && COLON !in tool' && tool + [COLON] + a == tool' + [COLON] + b
    ensures tool == tool' && a == b
  {
    var s := tool + [COLON] + a;
    assert s == tool' + [COLON] + b;
    forall i | 0 <= i < |tool| ensures s[i] != COLON { assert s[i] == tool[i] && tool[i] in tool; }
    forall i | 0 <= i < |tool'| ensures s[i] != COLON { assert s[i] == tool'[i] && tool'[i] in tool'; }
    assert s[|tool|] == COLON && s[|tool'|] == COLON;
    assert tool == s[..|tool|] && tool' == s[..|tool'|];
    assert a == s[|tool| + 1..] && b == s[|tool'| + 1..];
  }

  /** Text of a call, first colon first. */
  lemma TextSplits(tool: Text, args: StableJson.Value)
    ensures CallText(tool, args) == tool + [COLON] + ([COLON] + StableJson.Stable(ArgsOrEmpty(args)))
  {}

  /** Two calls have the same text exactly if they name the same tool with the same arguments, up to the
      order of object keys at every level. */
  lemma SameTextExactly(tool: Text, args: StableJson.Value, tool': Text, args': StableJson.Value)
    requires COLON !in tool && COLON !in tool' && StableJson.WellFormed(args) && StableJson.WellFormed(args')
    ensures CallText(tool, args) == CallText(tool', args') <==> tool == tool' && SameArgs(args, args')
  {
    var p, q := StableJson.Stable(ArgsOrEmpty(args)), StableJson.Stable(ArgsOrEmpty(args'));
    StableJson.StableIsCanonical(ArgsOrEmpty(args), ArgsOrEmpty(args'));
    TextSplits(tool, args);
    TextSplits(tool', args');
    if CallText(tool, args) == CallText(tool', args') {
      SameId(tool, tool', [COLON] + p, [COLON] + q);
      assert ([COLON] + p)[1..] == p && ([COLON] + q)[1..] == q;
    }
  }

  /** The duplicate guard recognises a repeated call however its object keys are ordered. */
  lemma SameCallSameSignature(tool: Text, args: StableJson.Value, args': StableJson.Value)
    requires StableJson.WellFormed(args) && StableJson.WellFormed(args') && SameArgs(args, args')
    ensures Signature(tool, args) == Signature(tool, args')
  {
    StableJson.StableIsCanonical(ArgsOrEmpty(args), ArgsOrEmpty(args'));
  }
}
