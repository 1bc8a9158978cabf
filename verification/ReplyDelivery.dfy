/** From the text of a delivery to the platform: what is split is what is sent, and what is delivered is the whole text. */
module ReplyDelivery {
  import opened GoTypes
  import opened Utf8
  import opened DiscordDelivery
  import Split = SplitReply

  /** The text can be split into at most this many chunks. */
  predicate Splits(text: Str, maxChunks: int) {
    ValidUtf8(text) && Split.Trim(text) != [] && 1 <= maxChunks && |Split.SplitAll(Split.Trim(text))| <= maxChunks
  }

  /** What deliver makes of a claimed delivery: it must be for this channel, and its text must split. */
  method Render(channel: Str, sameConversation: bool, replyTo: Str, text: Str, maxChunks: int) returns (offer: Offer)
    ensures offer == OfferOf(channel, sameConversation, replyTo, text, maxChunks)
  {
    if !sameConversation { return WrongConversation; }
    var split := Split.SplitText(text, maxChunks);
    if split.Rejected? { return Unsplittable; }
    return Deliverable(Reply(channel, replyTo, split.chunks));
  }

  function OfferOf(channel: Str, sameConversation: bool, replyTo: Str, text: Str, maxChunks: int): Offer {
    if !sameConversation then WrongConversation
    else if !Splits(text, maxChunks) then Unsplittable
    else Deliverable(Reply(channel, replyTo, Split.SplitAll(Split.Trim(text))))
  }

  /** Every attempt at the delivery renders this text for this channel. */
  ghost predicate Renders(attempts: seq<Attempt>, d: Str, channel: Str, replyTo: Str, text: Str, maxChunks: int) {
    forall n :: 0 <= n < |attempts| && attempts[n].delivery == d ==>
      attempts[n].offer == OfferOf(channel, true, replyTo, text, maxChunks)
  }

  /** The platform acknowledged these chunks of the delivery, in their places. */
  ghost predicate AcknowledgedAll(log: seq<Event>, d: Str, reply: Reply, chunks: seq<Str>) {
    reply.chunks == chunks && forall i: nat :: i < |chunks| ==> AckedAt(log, d, reply, i)
  }

  /**
   In every run of the connector: when Core hears that a delivery is delivered, the platform has acknowledged chunks
   that make up the delivery's whole text, in order and with nothing but spaces left out between them.
   */
  lemma DeliveredIsTheWholeText(attempts: seq<Attempt>, p: nat, channel: Str, replyTo: Str, text: Str, maxChunks: int)
    requires p < |After(attempts).log| && After(attempts).log[p].Told? && After(attempts).log[p].outcome.Delivered?
    requires Renders(attempts, After(attempts).log[p].delivery, channel, replyTo, text, maxChunks) && Splits(text, maxChunks)
    ensures var chunks := Split.SplitAll(Split.Trim(text));
      && AcknowledgedAll(After(attempts).log[..p], After(attempts).log[p].delivery, Reply(channel, replyTo, chunks), chunks)
      && Split.Woven(Split.Trim(text), 0, chunks)
  {
    var d, chunks := After(attempts).log[p].delivery, Split.SplitAll(Split.Trim(text));
    var reply := Reply(channel, replyTo, chunks);
    assert Offers(attempts, d, reply);
    DeliveredMeansAcknowledged(attempts, p, reply);
    Split.SplitDropsOnlySpaces(Split.Trim(text));
  }

  /** What cannot be rendered is told so at once, without a send, unless the delivery was remembered as sent before. */
  lemma UnrenderableIsTold(s: State, d: Str, channel: Str, sameConversation: bool, replyTo: Str, text: Str, maxChunks: int, worlds: seq<World>)
    requires d !in s.sent && !At(worlds, 0).stops && !At(worlds, 0).storeFails && !(sameConversation && Splits(text, maxChunks))
    ensures var after := DeliverStep(s, d, OfferOf(channel, sameConversation, replyTo, text, maxChunks), worlds);
      && after.rows == s.rows && after.sent == s.sent && |after.log| == |s.log| + 1 && after.log[..|s.log|] == s.log
      && after.log[|s.log|] == Told(d, PermanentFailure(if sameConversation then Core.ContentRejected else Core.ConnectorInternal))
  {
  }

  /** A remembered delivery is told again under the reference it was sent under, without a send. */
  lemma RememberedIsToldAgain(s: State, d: Str, offer: Offer, worlds: seq<World>)
    requires d in s.sent && !At(worlds, 0).stops && !At(worlds, 0).storeFails
    ensures DeliverStep(s, d, offer, worlds) == s.(log := s.log + [Told(d, Delivered(s.sent[d].ref))])
  {
  }
}
