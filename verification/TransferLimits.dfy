/** The memory limit decides: a file above it is never received, and one within it can always be. */
module TransferLimits {
  import opened Basics
  import opened Chunking
  import opened FileTransfer

  predicate TooLarge(job: Job, s: System)
  {
    |job.file| > s.receiver.ramLimit
  }

  lemma {:induction false} LimitStays(job: Job, s: System, actions: seq<Action>)
    requires job.Valid()
    ensures Run(job, s, actions).receiver.ramLimit == s.receiver.ramLimit
  {
    if actions != [] {
      LimitStays(job, s, actions[..|actions| - 1]);
    }
  }

  /** The offer is on its way, waiting, or turned down, and nothing was ever sent for it. */
  ghost predicate Stuck(job: Job, s: System)
    requires job.Valid()
  {
    && s.readies == 0
    && (s.sender.Some? ==> s.sender.value.status.Offered?)
    && (job.id in s.receiver.transfers ==>
          s.receiver.transfers[job.id].status in {Offered, Failed} && s.receiver.transfers[job.id].fileSize == |job.file|)
    && forall w :: w in s.channel ==> w == MetaMsg(Meta(job.id, |job.file|, job.Total()))
  }

  lemma StuckStep(job: Job, s: System, a: Action)
    requires job.Valid() && Stuck(job, s) && TooLarge(job, s)
    ensures Stuck(job, Step(job, s, a))
  {
    var offer := MetaMsg(Meta(job.id, |job.file|, job.Total()));
    if a.Deliver? && s.channel != [] {
      assert s.channel[0] in s.channel;
      assert forall w :: w in s.channel[1..] ==> w in s.channel;
    }
    assert forall w :: w in s.channel + [offer] ==> w in s.channel || w == offer;
  }

  lemma {:induction false} StuckAlways(job: Job, s: System, actions: seq<Action>)
    requires job.Valid() && Initial(job, s) && TooLarge(job, s)
    ensures Stuck(job, Run(job, s, actions))
  {
    if actions != [] {
      StuckAlways(job, s, actions[..|actions| - 1]);
      LimitStays(job, s, actions[..|actions| - 1]);
      StuckStep(job, Run(job, s, actions[..|actions| - 1]), actions[|actions| - 1]);
    }
  }

  /** No run marks a file above the limit receiving or completed, or has a `file-ready` for it under way. */
  lemma {:induction false} LargeFileStaysOut(job: Job, s: System, actions: seq<Action>)
    requires job.Valid() && Initial(job, s) && |job.file| > s.receiver.ramLimit
    ensures var now := Run(job, s, actions);
            now.readies == 0 &&
            (job.id in now.receiver.transfers ==>
               !now.receiver.transfers[job.id].status.Receiving? && !now.receiver.transfers[job.id].status.Completed?)
  {
    StuckAlways(job, s, actions);
  }

  ghost predicate NotFailed(job: Job, s: System)
  {
    job.id in s.receiver.transfers ==> !s.receiver.transfers[job.id].status.Failed?
  }

  lemma NotFailedStep(job: Job, s: System, a: Action)
    requires job.Valid() && Inv(job, s) && NotFailed(job, s) && !TooLarge(job, s)
    ensures NotFailed(job, Step(job, s, a))
  {
    hide Packet, ParsePacket, SliceFile, Slices, Flatten;
  }

  /** No run marks a file within the limit failed at the receiver. */
  lemma {:induction false} SmallFileNeverFails(job: Job, s: System, actions: seq<Action>)
    requires job.Valid() && Initial(job, s) && |job.file| <= s.receiver.ramLimit
    ensures NotFailed(job, Run(job, s, actions))
  {
    if actions != [] {
      hide Step, NotFailed, Inv;
      SmallFileNeverFails(job, s, actions[..|actions| - 1]);
      LimitStays(job, s, actions[..|actions| - 1]);
      RunKeepsInv(job, s, actions[..|actions| - 1]);
      NotFailedStep(job, Run(job, s, actions[..|actions| - 1]), actions[|actions| - 1]);
    }
  }

  // Nothing else stands in the way of a file within the limit.

  function Repeated(a: Action, n: nat): seq<Action>
  {
    if n == 0 then [] else Repeated(a, n - 1) + [a]
  }

  lemma {:induction false} RunOn(job: Job, s: System, before: seq<Action>, after: seq<Action>)
    requires job.Valid()
    ensures Run(job, s, before + after) == Run(job, Run(job, s, before), after)
  {
    if after == [] {
      assert before + after == before;
    } else {
      var n := |after| - 1;
      assert (before + after)[..|before| + n] == before + after[..n];
      RunOn(job, s, before, after[..n]);
    }
  }

  /** The sender has sent `n` frames, and all of them are under way. */
  ghost predicate Sent(job: Job, s: System, n: nat)
    requires job.Valid()
  {
    s.sender.Some? && s.sender.value.status.Sending? && s.sender.value.chunksSent == n && |s.channel| == n
  }

  const HANDSHAKE: seq<Action> := [Offer, Deliver, Accept, DeliverReady]

  lemma {:induction false} OfferReaches(job: Job, s: System)
    requires job.Valid() && Initial(job, s)
    ensures var z := Run(job, s, [Offer, Deliver]);
            && job.id in z.receiver.transfers && z.receiver.transfers[job.id].status.Offered?
            && z.receiver.transfers[job.id].fileSize == |job.file| && z.receiver.ramLimit == s.receiver.ramLimit
            && z.sender.Some? && z.sender.value.status.Offered? && z.sender.value.chunksSent == 0 && z.readies == 0 && z.channel == []
  {
    assert [Offer, Deliver][..1] == [Offer] && [Offer][..0] == [];
    assert Run(job, s, []) == s;
    assert Run(job, s, [Offer]) == Step(job, s, Offer);
  }

  lemma {:induction false} HandshakeStarts(job: Job, s: System)
    requires job.Valid() && Initial(job, s) && !TooLarge(job, s)
    ensures Sent(job, Run(job, s, HANDSHAKE), 0)
  {
    OfferReaches(job, s);
    var z := Run(job, s, [Offer, Deliver]);
    RunOn(job, s, [Offer, Deliver], [Accept, DeliverReady]);
    assert [Offer, Deliver] + [Accept, DeliverReady] == HANDSHAKE;
    assert [Accept, DeliverReady][..1] == [Accept] && [Accept][..0] == [];
    assert Run(job, z, []) == z;
    assert Run(job, z, [Accept]) == Step(job, z, Accept);
  }

  lemma {:induction false} AllFramesGo(job: Job, s: System, n: nat)
    requires job.Valid() && Sent(job, s, 0) && n <= job.Total()
    ensures Sent(job, Run(job, s, Repeated(SendChunk, n)), n)
  {
    if n > 0 {
      assert Repeated(SendChunk, n)[..|Repeated(SendChunk, n)| - 1] == Repeated(SendChunk, n - 1);
      AllFramesGo(job, s, n - 1);
    }
  }

  lemma {:induction false} ChannelDrains(job: Job, s: System, n: nat)
    requires job.Valid() && n <= |s.channel|
    ensures |Run(job, s, Repeated(Deliver, n)).channel| == |s.channel| - n && Run(job, s, Repeated(Deliver, n)).sender == s.sender
  {
    if n > 0 {
      assert Repeated(Deliver, n)[..|Repeated(Deliver, n)| - 1] == Repeated(Deliver, n - 1);
      ChannelDrains(job, s, n - 1);
    }
  }

  /** Offered, accepted, streamed without a disturbance, and drained. */
  function Undisturbed(job: Job): seq<Action>
    requires job.Valid()
  {
    HANDSHAKE + Repeated(SendChunk, job.Total()) + [Finish] + Repeated(Deliver, job.Total() + 1)
  }

  lemma {:induction false} StreamEnds(job: Job, s: System)
    requires job.Valid() && Sent(job, s, job.Total())
    ensures var z := Run(job, Run(job, s, [Finish]), Repeated(Deliver, job.Total() + 1));
            z.channel == [] && z.sender.Some? && z.sender.value.status.Completed?
  {
    assert [Finish][..0] == [] && Run(job, s, []) == s;
    ChannelDrains(job, Run(job, s, [Finish]), job.Total() + 1);
  }

  /** A file within the limit, under an id the frame carries, arrives whole when nothing disturbs its transfer. */
  lemma {:induction false} UndisturbedArrives(job: Job, s: System)
    requires job.Valid() && Initial(job, s) && |job.file| <= s.receiver.ramLimit && CarriedId(job.id)
    ensures var z := Run(job, s, Undisturbed(job));
            && z.channel == [] && z.sender == Some(Recipient(Completed, job.Total(), |job.file|))
            && job.id in z.receiver.transfers && z.receiver.transfers[job.id].status.Completed?
            && z.receiver.transfers[job.id].blob == Some(job.file)
  {
    hide Run, Initial, Step;
    var frames := Repeated(SendChunk, job.Total());
    var started := Run(job, s, HANDSHAKE);
    var sent := Run(job, started, frames);
    HandshakeStarts(job, s);
    AllFramesGo(job, started, job.Total());
    StreamEnds(job, sent);
    RunOn(job, s, HANDSHAKE, frames);
    RunOn(job, s, HANDSHAKE + frames, [Finish]);
    RunOn(job, s, HANDSHAKE + frames + [Finish], Repeated(Deliver, job.Total() + 1));
    DrainedIsCompleted(job, s, Undisturbed(job));
    CompletedHoldsFileIff(job, s, Undisturbed(job));
  }
}
