/** The text-compression challenge message exchanged between a validator and a
    miner, and the two views derived from it: what a miner may see, and the
    three-field wire form. The message is an immutable value; the one in-place
    write of neural_condense_core/protocol.py (hiding the ground truth) is a
    function returning the updated message. The compressed token vectors hold
    floats, modelled as reals; the message only carries them. */
module Protocol {

  /** The fields of the message, with their wire names. */
  const ContextKey := "context"
  const CompressedTokensKey := "compressed_tokens"
  const ExpectedCompletionKey := "expected_completion"

  /** The challenge message: the text to compress, the miner's compressed
      token vectors, and the validator's ground-truth completion. */
  datatype TextCompressProtocol = TextCompressProtocol(
    context: string,
    compressedTokens: seq<seq<real>>,
    expectedCompletion: string
  )

  /** The companion message type that carries only a free-form mapping. */
  datatype Metadata<V> = Metadata(metadata: map<string, V>)

  /** A value stored under one key of the wire form. */
  datatype WireValue = Text(text: string) | Tokens(rows: seq<seq<real>>)

  type WireForm = map<string, WireValue>

  /** A message built without arguments: every field takes its declared default. */
  function Default(): (m: TextCompressProtocol)
    ensures m.context == ""
    ensures m.compressedTokens == []
    ensures m.expectedCompletion == ""
  {
    TextCompressProtocol("", [], "")
  }

  /** The metadata message built without arguments holds the empty mapping. */
  function DefaultMetadata<V>(): (m: Metadata<V>)
    ensures m.metadata == map[]
  {
    Metadata(map[])
  }

  /** The view a miner is allowed to see: the context and nothing else. */
  function GetMinerPayload(m: TextCompressProtocol): (p: map<string, string>)
    ensures p.Keys == {ContextKey}
    ensures p[ContextKey] == m.context
    ensures CompressedTokensKey !in p && ExpectedCompletionKey !in p
  {
    map[ContextKey := m.context]
  }

  /** Redacts the ground truth; the other two fields are left as they were. */
  function HideGroundTruth(m: TextCompressProtocol): (h: TextCompressProtocol)
    ensures h.expectedCompletion == ""
    ensures h.context == m.context
    ensures h.compressedTokens == m.compressedTokens
  {
    m.(expectedCompletion := "")
  }

  /** The three-field form used on the wire and for persistence. */
  function Deserialize(m: TextCompressProtocol): (w: WireForm)
    ensures w.Keys == {ContextKey, CompressedTokensKey, ExpectedCompletionKey}
    ensures w[ContextKey] == Text(m.context)
    ensures w[ExpectedCompletionKey] == Text(m.expectedCompletion)
    ensures w[CompressedTokensKey].Tokens?
    ensures |w[CompressedTokensKey].rows| == |m.compressedTokens|
    ensures forall i :: 0 <= i < |m.compressedTokens| ==>
              w[CompressedTokensKey].rows[i] == m.compressedTokens[i]
  {
    map[ContextKey := Text(m.context),
        CompressedTokensKey := Tokens(m.compressedTokens),
        ExpectedCompletionKey := Text(m.expectedCompletion)]
  }

  /** Reads a message back from its wire form. Only a mapping with exactly the
      three keys, each holding a value of the right kind, is accepted. */
  function FromWire(w: WireForm): (r: Option<TextCompressProtocol>)
    ensures r.Some? <==> WellFormedWire(w)
  {
    if WellFormedWire(w) then
      Some(TextCompressProtocol(w[ContextKey].text, w[CompressedTokensKey].rows, w[ExpectedCompletionKey].text))
    else
      None
  }

  datatype Option<T> = None | Some(value: T)

  predicate WellFormedWire(w: WireForm) {
    && w.Keys == {ContextKey, CompressedTokensKey, ExpectedCompletionKey}
    && w[ContextKey].Text?
    && w[CompressedTokensKey].Tokens?
    && w[ExpectedCompletionKey].Text?
  }

  /** Reading back the wire form of a message gives the message, field for field. */
  lemma WireRoundTrip(m: TextCompressProtocol)
    ensures FromWire(Deserialize(m)) == Some(m)
  {
  }

  /** Every well-formed wire form is the wire form of the message read from it. */
  lemma WireRoundTripBack(w: WireForm)
    requires WellFormedWire(w)
    ensures FromWire(w).Some? && Deserialize(FromWire(w).value) == w
  {
    var w' := Deserialize(FromWire(w).value);
    assert w'.Keys == w.Keys;
    forall k | k in w ensures w'[k] == w[k] {
      assert k == ContextKey || k == CompressedTokensKey || k == ExpectedCompletionKey;
    }
  }

  /** The miner's view is the wire form restricted to the context key. */
  lemma MinerPayloadIsWireRestriction(m: TextCompressProtocol)
    ensures GetMinerPayload(m).Keys < Deserialize(m).Keys
    ensures forall k :: k in GetMinerPayload(m) ==> Deserialize(m)[k] == Text(GetMinerPayload(m)[k])
  {
  }

  /** Hiding twice is the same as hiding once. */
  lemma HideGroundTruthIdempotent(m: TextCompressProtocol)
    ensures HideGroundTruth(HideGroundTruth(m)) == HideGroundTruth(m)
  {
  }

  /** The wire form of a hidden message: empty ground truth, the other two
      fields as they were before the hide. */
  lemma DeserializeAfterHide(m: TextCompressProtocol)
    ensures Deserialize(HideGroundTruth(m))[ExpectedCompletionKey] == Text("")
    ensures Deserialize(HideGroundTruth(m))[ContextKey] == Text(m.context)
    ensures Deserialize(HideGroundTruth(m))[CompressedTokensKey] == Tokens(m.compressedTokens)
  {
  }

  /** The three operations of the message, seen as calls on a live object. */
  datatype Call = MinerPayloadCall | HideCall | DeserializeCall

  /** What a call hands back: the miner's view, nothing, or the wire form. */
  datatype Reply = Payload(payload: map<string, string>) | NoReply | Wire(form: WireForm)

  /** One call on the message: the message after the call, and the call's reply. */
  function Invoke(m: TextCompressProtocol, c: Call): (r: (TextCompressProtocol, Reply))
    ensures r.0.context == m.context && r.0.compressedTokens == m.compressedTokens
    ensures !c.HideCall? ==> r.0 == m
    ensures c.HideCall? ==> r.0.expectedCompletion == "" && r.1 == NoReply
    ensures c.MinerPayloadCall? ==> r.1.Payload? && r.1.payload.Keys == {ContextKey}
    ensures c.DeserializeCall? ==> r.1.Wire? && FromWire(r.1.form) == Some(m)
  {
    match c
    case MinerPayloadCall => (m, Payload(GetMinerPayload(m)))
    case HideCall => (HideGroundTruth(m), NoReply)
    case DeserializeCall => (m, Wire(Deserialize(m)))
  }

  /** A sequence of calls on the same message, in order. */
  function InvokeAll(m: TextCompressProtocol, cs: seq<Call>): (r: (TextCompressProtocol, seq<Reply>))
    ensures |r.1| == |cs|
    decreases |cs|
  {
    if |cs| == 0 then (m, [])
    else
      var (m1, reply) := Invoke(m, cs[0]);
      var (mn, replies) := InvokeAll(m1, cs[1..]);
      (mn, [reply] + replies)
  }

  /** The message a sequence of calls should leave behind: the original one,
      with the ground truth gone if and only if a hide was among the calls. */
  function AfterCalls(m: TextCompressProtocol, cs: seq<Call>): TextCompressProtocol {
    m.(expectedCompletion := if HideCall in cs then "" else m.expectedCompletion)
  }

  /** Over any sequence of calls, the context and the compressed tokens never
      change, and the ground truth is gone exactly when a hide was among the
      calls. */
  lemma {:induction false} SessionFinalState(m: TextCompressProtocol, cs: seq<Call>)
    ensures InvokeAll(m, cs).0.context == m.context
    ensures InvokeAll(m, cs).0.compressedTokens == m.compressedTokens
    ensures InvokeAll(m, cs).0.expectedCompletion == (if HideCall in cs then "" else m.expectedCompletion)
    decreases |cs|
  {
    if |cs| > 0 {
      var m1 := Invoke(m, cs[0]).0;
      SessionFinalState(m1, cs[1..]);
      assert InvokeAll(m, cs).0 == InvokeAll(m1, cs[1..]).0;
      assert cs == [cs[0]] + cs[1..];
    }
  }

  /** Over any sequence of calls, every miner view shows the original context
      only, and every wire form is that of the original message, with the
      ground truth emptied if and only if a hide came earlier. */
  lemma {:induction false} SessionReplies(m: TextCompressProtocol, cs: seq<Call>)
    ensures forall k :: 0 <= k < |cs| && cs[k].MinerPayloadCall? ==>
              InvokeAll(m, cs).1[k] == Payload(map[ContextKey := m.context])
    ensures forall k :: 0 <= k < |cs| && cs[k].DeserializeCall? ==>
              InvokeAll(m, cs).1[k] == Wire(Deserialize(AfterCalls(m, cs[..k])))
    decreases |cs|
  {
    if |cs| > 0 {
      var (m1, reply) := Invoke(m, cs[0]);
      SessionReplies(m1, cs[1..]);
      var replies := InvokeAll(m, cs).1;
      var rest := InvokeAll(m1, cs[1..]).1;
      assert replies == [reply] + rest;
      assert m1 == AfterCalls(m, [cs[0]]);
      assert cs[..0] == [];
      forall k | 1 <= k < |cs|
        ensures cs[k].MinerPayloadCall? ==> replies[k] == Payload(map[ContextKey := m.context])
        ensures cs[k].DeserializeCall? ==> replies[k] == Wire(Deserialize(AfterCalls(m, cs[..k])))
      {
        assert replies[k] == rest[k - 1];
        assert cs[1..][k - 1] == cs[k];
        assert cs[..k] == [cs[0]] + cs[1..][..k - 1];
        assert AfterCalls(m1, cs[1..][..k - 1]) == AfterCalls(m, cs[..k]);
      }
    }
  }
}
