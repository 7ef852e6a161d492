/**
 The file transfer pipeline: sender, ordered channel and receiver (blob mode), one transfer to
 one recipient, with every interleaving of their steps.
 */
module FileTransfer {
  import opened Basics
  import opened JsStrings
  import opened Chunking

  datatype Status = Offered | Sending | Receiving | Completed | Failed

  datatype StorageMode = FileSystem | BlobMode

  datatype Meta = Meta(transferId: string, fileSize: nat, totalChunks: nat)

  // Receiver.

  datatype Incoming = Incoming(
    fileSize: nat,
    totalChunks: nat,
    receivedChunks: nat,
    bytesReceived: nat,
    status: Status,
    mode: StorageMode,
    blob: Option<Bytes>)

  datatype Receiver = Receiver(
    fsSupported: bool,
    ramLimit: nat,
    transfers: map<string, Incoming>,
    blobChunks: map<string, seq<Bytes>>)

  function OnMeta(r: Receiver, m: Meta): Receiver
  {
    var t := Incoming(m.fileSize, m.totalChunks, 0, 0, Offered, if r.fsSupported then FileSystem else BlobMode, None);
    r.(transfers := r.transfers[m.transferId := t])
  }

  /** Accepting in blob mode; true when `file-ready` is sent. */
  function OnAccept(r: Receiver, id: string): (Receiver, bool)
  {
    if id !in r.transfers then
      (r, false)
    else if r.transfers[id].fileSize > r.ramLimit then
      (r.(transfers := r.transfers[id := r.transfers[id].(status := Failed)]), false)
    else
      (r.(transfers := r.transfers[id := r.transfers[id].(status := Receiving, mode := BlobMode)],
          blobChunks := r.blobChunks[id := []]), true)
  }

  function StoredChunks(r: Receiver, id: string): seq<Bytes>
  {
    if id in r.blobChunks then r.blobChunks[id] else []
  }

  function OnFinalize(r: Receiver, id: string): Receiver
  {
    if id !in r.transfers || r.transfers[id].status.Completed? then
      r
    else if r.transfers[id].mode.BlobMode? then
      r.(transfers := r.transfers[id := r.transfers[id].(status := Completed, blob := Some(Flatten(StoredChunks(r, id))))],
         blobChunks := r.blobChunks - {id})
    else
      r.(transfers := r.transfers[id := r.transfers[id].(status := Completed)])
  }

  function Stored(r: Receiver, c: Chunk): Receiver
    requires c.transferId in r.transfers
  {
    var id := c.transferId;
    var t := r.transfers[id];
    r.(transfers := r.transfers[id := t.(receivedChunks := t.receivedChunks + 1, bytesReceived := t.bytesReceived + |c.data|)],
       blobChunks := if t.mode.BlobMode? then r.blobChunks[id := StoredChunks(r, id) + [c.data]] else r.blobChunks)
  }

  function OnChunk(r: Receiver, c: Chunk): Receiver
  {
    var id := c.transferId;
    if id !in r.transfers || !r.transfers[id].status.Receiving? then
      r
    else
      var s := Stored(r, c);
      if s.transfers[id].receivedChunks >= s.transfers[id].totalChunks then OnFinalize(s, id) else s
  }

  class FileReceiver {
    const fsSupported: bool
    const ramLimit: nat
    var transfers: map<string, Incoming>
    var blobChunks: map<string, seq<Bytes>>

    ghost function Value(): Receiver
      reads this
    {
      Receiver(fsSupported, ramLimit, transfers, blobChunks)
    }

    constructor (fsSupported: bool, ramLimit: nat)
      ensures Value() == Receiver(fsSupported, ramLimit, map[], map[])
    {
      this.fsSupported, this.ramLimit := fsSupported, ramLimit;
      transfers, blobChunks := map[], map[];
    }

    /** Files a peer was asked for are accepted at once. */
    method HandleFileMeta(m: Meta, autoAccept: bool) returns (ready: bool)
      modifies this
      ensures (Value(), ready) == if autoAccept then OnAccept(OnMeta(old(Value()), m), m.transferId) else (OnMeta(old(Value()), m), false)
    {
      var mode := if fsSupported then FileSystem else BlobMode;
      transfers := transfers[m.transferId := Incoming(m.fileSize, m.totalChunks, 0, 0, Offered, mode, None)];
      ready := false;
      if autoAccept {
        ready := AcceptWithBlob(m.transferId);
      }
    }

    method AcceptWithBlob(id: string) returns (ready: bool)
      modifies this
      ensures (Value(), ready) == OnAccept(old(Value()), id)
    {
      if id !in transfers {
        return false;
      }
      var transfer := transfers[id];
      if transfer.fileSize > ramLimit {
        transfers := transfers[id := transfer.(status := Failed)];
        return false;
      }
      transfer := transfer.(mode := BlobMode);
      transfer := transfer.(status := Receiving);
      transfers := transfers[id := transfer];
      blobChunks := blobChunks[id := []];
      return true;
    }

    method HandleBinaryChunk(c: Chunk)
      modifies this
      ensures Value() == OnChunk(old(Value()), c)
    {
      if c.transferId !in transfers || transfers[c.transferId].status != Receiving {
        return;
      }
      StoreChunk(c);
      if transfers[c.transferId].receivedChunks >= transfers[c.transferId].totalChunks {
        FinalizeTransfer(c.transferId);
      }
    }

    /** Appends the payload to the transfer's buffer and counts it. */
    method StoreChunk(c: Chunk)
      requires c.transferId in transfers
      modifies this
      ensures Value() == Stored(old(Value()), c)
    {
      var transfer := transfers[c.transferId];
      if transfer.mode == BlobMode {
        var chunks := if c.transferId in blobChunks then blobChunks[c.transferId] else [];
        blobChunks := blobChunks[c.transferId := chunks + [c.data]];
      }
      transfer := transfer.(receivedChunks := transfer.receivedChunks + 1);
      transfer := transfer.(bytesReceived := transfer.bytesReceived + |c.data|);
      transfers := transfers[c.transferId := transfer];
    }

    method FinalizeTransfer(id: string)
      modifies this
      ensures Value() == OnFinalize(old(Value()), id)
    {
      if id !in transfers || transfers[id].status == Completed {
        return;
      }
      var transfer := transfers[id];
      if transfer.mode == BlobMode {
        var chunks := if id in blobChunks then blobChunks[id] else [];
        transfer := transfer.(blob := Some(Flatten(chunks)));
        blobChunks := blobChunks - {id};
      }
      transfer := transfer.(status := Completed);
      transfers := transfers[id := transfer];
    }
  }

  // Sender.

  datatype Wire = MetaMsg(meta: Meta) | ChunkMsg(packet: Bytes) | CompleteMsg(transferId: string)

  datatype Job = Job(id: string, file: Bytes, chunkSize: nat)
  {
    ghost predicate Valid() {
      chunkSize > 0 && IsAscii(id)
    }

    function Total(): nat
      requires chunkSize > 0
    {
      TotalChunks(|file|, chunkSize)
    }

    function PacketAt(i: nat): Wire
      requires Valid()
    {
      ChunkMsg(Packet(Chunk(id, i, Total(), SliceFile(file, i, chunkSize))))
    }

    /** The frames of chunks `lo` to `hi - 1`. */
    function Packets(lo: nat, hi: nat): (p: seq<Wire>)
      requires Valid() && lo <= hi
      ensures |p| == hi - lo
    {
      seq(hi - lo, i requires 0 <= i < hi - lo => PacketAt(lo + i))
    }
  }

  /** Progress towards one recipient. */
  datatype Recipient = Recipient(status: Status, chunksSent: nat, bytesSent: nat)

  function BytesIn(job: Job, n: nat): nat
  {
    if n == 0 then 0 else BytesIn(job, n - 1) + |SliceFile(job.file, n - 1, job.chunkSize)|
  }

  lemma {:induction false} BytesInIsLength(job: Job, n: nat)
    ensures BytesIn(job, n) == |Flatten(Slices(job.file, 0, n, job.chunkSize))|
  {
    if n > 0 {
      BytesInIsLength(job, n - 1);
      SlicesSnoc(job.file, 0, n - 1, job.chunkSize);
      FlattenSnoc(Slices(job.file, 0, n - 1, job.chunkSize), SliceFile(job.file, n - 1, job.chunkSize), []);
    }
  }

  /** The streaming loop towards one peer, uninterrupted; `outbox` is what the channel was given. */
  class FileSender {
    const job: Job
    var recipient: Recipient
    var outbox: seq<Wire>

    constructor (job: Job)
      requires job.Valid()
      ensures this.job == job && recipient == Recipient(Offered, 0, 0)
      ensures outbox == [MetaMsg(Meta(job.id, |job.file|, job.Total()))]
    {
      this.job := job;
      recipient := Recipient(Offered, 0, 0);
      outbox := [MetaMsg(Meta(job.id, |job.file|, job.Total()))];
    }

    /** A stream that starts again after a failure sends every frame again, and goes on counting bytes. */
    method StartStreamToPeer(blocked: bool)
      requires job.Valid()
      modifies this
      ensures if blocked || old(recipient).status in {Sending, Completed} then
                recipient == old(recipient) && outbox == old(outbox)
              else
                && recipient == Recipient(Completed, job.Total(), old(recipient).bytesSent + |job.file|)
                && outbox == old(outbox) + job.Packets(0, job.Total()) + [CompleteMsg(job.id)]
    {
      if blocked || recipient.status == Sending || recipient.status == Completed {
        return;
      }
      recipient := recipient.(status := Sending);
      var totalChunks := job.Total();
      assert outbox == outbox + job.Packets(0, 0);
      for chunkIndex := 0 to totalChunks
        invariant recipient.status.Sending? && (chunkIndex > 0 ==> recipient.chunksSent == chunkIndex)
        invariant recipient.bytesSent == old(recipient).bytesSent + BytesIn(job, chunkIndex)
        invariant outbox == old(outbox) + job.Packets(0, chunkIndex)
      {
        var chunkBytes := SliceFile(job.file, chunkIndex, job.chunkSize);
        var packet := CreateFileChunkPacket(Chunk(job.id, chunkIndex, totalChunks, chunkBytes));
        assert job.Packets(0, chunkIndex + 1) == job.Packets(0, chunkIndex) + [job.PacketAt(chunkIndex)];
        outbox := outbox + [ChunkMsg(packet[..])];
        recipient := recipient.(chunksSent := chunkIndex + 1);
        recipient := recipient.(bytesSent := recipient.bytesSent + |chunkBytes|);
      }
      BytesInIsLength(job, totalChunks);
      ChunksMakeFile(job.file, job.chunkSize);
      recipient := recipient.(status := Completed);
      outbox := outbox + [CompleteMsg(job.id)];
    }
  }

  // The system: any interleaving of sender, channel and receiver steps.

  /** `sender` is absent before the offer; `readies` counts `file-ready` messages under way. */
  datatype System = System(sender: Option<Recipient>, channel: seq<Wire>, readies: nat, receiver: Receiver)

  datatype Action = Offer | Deliver | Accept | DeliverReady | SendChunk | SendFails | Finish

  function Receive(r: Receiver, w: Wire): Receiver
  {
    match w
    case MetaMsg(m) => OnMeta(r, m)
    case ChunkMsg(p) => var c := ParsePacket(p); if c.Some? then OnChunk(r, c.value) else r
    case CompleteMsg(id) => OnFinalize(r, id)
  }

  /** One step; an action that is not possible changes nothing. The offer is accepted at most once. */
  function Step(job: Job, s: System, a: Action): System
    requires job.Valid()
  {
    match a
    case Offer =>
      if s.sender.Some? then s else
      s.(sender := Some(Recipient(Offered, 0, 0)),
         channel := s.channel + [MetaMsg(Meta(job.id, |job.file|, job.Total()))])
    case Deliver =>
      if s.channel == [] then s else s.(channel := s.channel[1..], receiver := Receive(s.receiver, s.channel[0]))
    case Accept =>
      if job.id !in s.receiver.transfers || !s.receiver.transfers[job.id].status.Offered? then s else
      var (r, ready) := OnAccept(s.receiver, job.id);
      s.(receiver := r, readies := if ready then s.readies + 1 else s.readies)
    case DeliverReady =>
      if s.readies == 0 then s else
      s.(readies := s.readies - 1,
         sender := if s.sender.Some? && s.sender.value.status !in {Sending, Completed}
                   then Some(s.sender.value.(status := Sending)) else s.sender)
    case SendChunk =>
      if s.sender.None? || !s.sender.value.status.Sending? || s.sender.value.chunksSent >= job.Total() then s else
      var n := s.sender.value.chunksSent;
      s.(channel := s.channel + [job.PacketAt(n)],
         sender := Some(Recipient(Sending, n + 1, s.sender.value.bytesSent + |SliceFile(job.file, n, job.chunkSize)|)))
    case SendFails =>
      if s.sender.None? || !s.sender.value.status.Sending? then s else
      s.(sender := Some(s.sender.value.(status := Failed)))
    case Finish =>
      if s.sender.None? || !s.sender.value.status.Sending? || s.sender.value.chunksSent < job.Total() then s else
      s.(sender := Some(s.sender.value.(status := Completed)), channel := s.channel + [CompleteMsg(job.id)])
  }

  function Run(job: Job, s: System, actions: seq<Action>): System
    requires job.Valid()
  {
    if actions == [] then s else Step(job, Run(job, s, actions[..|actions| - 1]), actions[|actions| - 1])
  }

  ghost predicate Initial(job: Job, s: System)
  {
    && s.sender.None? && s.channel == [] && s.readies == 0
    && job.id !in s.receiver.transfers && job.id !in s.receiver.blobChunks
  }

  /** Chunks count at the receiver only when the frame carries the id. */
  ghost predicate Recognised(job: Job)
  {
    CarriedId(job.id)
  }

  /** What the receiver holds of the transfer after `d` delivered frames. */
  ghost predicate ReceiverAt(job: Job, r: Receiver, d: int, ended: bool)
    requires job.Valid()
  {
    && job.id in r.transfers && 0 <= d <= job.Total()
    && var t := r.transfers[job.id];
      var got := if Recognised(job) then d else 0;
      && t.totalChunks == job.Total() && t.fileSize == |job.file| && t.mode.BlobMode?
      && t.receivedChunks == got && t.bytesReceived == BytesIn(job, got)
      && if got == job.Total() || ended then
           t.status.Completed? && t.blob == Some(Flatten(Slices(job.file, 0, got, job.chunkSize)))
         else
           t.status.Receiving? && job.id in r.blobChunks
           && r.blobChunks[job.id] == Slices(job.file, 0, got, job.chunkSize)
  }

  function Queue(job: Job, lo: nat, hi: nat, ended: bool): seq<Wire>
    requires job.Valid() && lo <= hi
  {
    job.Packets(lo, hi) + if ended then [CompleteMsg(job.id)] else []
  }

  /** Streaming: `d` frames were delivered, and the channel holds exactly the rest of what was sent. */
  ghost predicate Streaming(job: Job, s: System, d: nat)
    requires job.Valid() && s.sender.Some?
  {
    var n, ended := s.sender.value.chunksSent, s.sender.value.status.Completed?;
    && d <= n
    && (|| (s.channel == Queue(job, d, n, ended) && ReceiverAt(job, s.receiver, d, false))
        || (s.channel == [] && ended && d == n && ReceiverAt(job, s.receiver, d, true)))
  }

  /** Before the stream: the offer under way, waiting for an answer, or accepted. */
  ghost predicate Offering(job: Job, s: System)
    requires job.Valid()
  {
    || (s.readies == 0 && s.channel == [MetaMsg(Meta(job.id, |job.file|, job.Total()))]
        && job.id !in s.receiver.transfers && job.id !in s.receiver.blobChunks)
    || (s.readies == 0 && s.channel == [] && job.id in s.receiver.transfers && job.id !in s.receiver.blobChunks
        && var t := s.receiver.transfers[job.id];
           t.status in {Offered, Failed} && t == Incoming(|job.file|, job.Total(), 0, 0, t.status, t.mode, None))
    || (s.readies == 1 && s.channel == [] && ReceiverAt(job, s.receiver, 0, false))
  }

  ghost predicate Inv(job: Job, s: System)
    requires job.Valid()
  {
    if s.sender.None? then
      Initial(job, s)
    else
      var p := s.sender.value;
      && p.chunksSent <= job.Total() && p.bytesSent == BytesIn(job, p.chunksSent)
      && if p.status.Offered? then
           p.chunksSent == 0 && Offering(job, s)
         else
           && s.readies == 0 && p.status in {Sending, Failed, Completed}
           && (p.status.Completed? ==> p.chunksSent == job.Total())
           && exists d :: Streaming(job, s, d)
  }

  /** The chunk a frame is read as. */
  function ReadAs(job: Job, d: nat): Chunk
    requires job.Valid()
  {
    Chunk(Trim(IdField(job.id)), d % U32, job.Total() % U32, SliceFile(job.file, d, job.chunkSize))
  }

  lemma FrameIsRead(job: Job, r: Receiver, d: nat)
    requires job.Valid()
    ensures Receive(r, job.PacketAt(d)) == OnChunk(r, ReadAs(job, d))
  {
    hide Packet, ParsePacket, OnChunk;
    ParseOfPacket(Chunk(job.id, d, job.Total(), SliceFile(job.file, d, job.chunkSize)));
  }

  lemma StrangeChunk(job: Job, r: Receiver, d: nat, c: Chunk)
    requires job.Valid() && d < job.Total() && ReceiverAt(job, r, d, false)
    requires !Recognised(job) && c.transferId != job.id
    ensures ReceiverAt(job, OnChunk(r, c), d + 1, false)
  {
  }

  lemma OwnChunk(job: Job, r: Receiver, d: nat, c: Chunk)
    requires job.Valid() && d < job.Total() && ReceiverAt(job, r, d, false)
    requires Recognised(job) && c.transferId == job.id && c.data == SliceFile(job.file, d, job.chunkSize)
    ensures ReceiverAt(job, OnChunk(r, c), d + 1, false)
  {
    SlicesSnoc(job.file, 0, d, job.chunkSize);
    assert BytesIn(job, d + 1) == BytesIn(job, d) + |c.data|;
    hide Slices, SliceFile, Flatten, CarriedId, BytesIn, Job.Total;
  }

  /** A delivered frame advances the receiver by one chunk, or not at all if the id is not carried. */
  lemma ChunkArrives(job: Job, r: Receiver, d: nat)
    requires job.Valid() && d < job.Total() && ReceiverAt(job, r, d, false)
    ensures ReceiverAt(job, Receive(r, job.PacketAt(d)), d + 1, false)
  {
    hide Receive, OnChunk, ReceiverAt, CarriedId, IdField, Trim;
    FrameIsRead(job, r, d);
    IdFieldIff(job.id);
    if Recognised(job) {
      OwnChunk(job, r, d, ReadAs(job, d));
    } else {
      StrangeChunk(job, r, d, ReadAs(job, d));
    }
  }

  lemma CompleteArrives(job: Job, r: Receiver)
    requires job.Valid() && ReceiverAt(job, r, job.Total(), false)
    ensures ReceiverAt(job, Receive(r, CompleteMsg(job.id)), job.Total(), true)
  {
  }

  lemma QueueHead(job: Job, lo: nat, hi: nat, ended: bool)
    requires job.Valid() && lo < hi
    ensures Queue(job, lo, hi, ended) != [] && Queue(job, lo, hi, ended)[0] == job.PacketAt(lo)
    ensures Queue(job, lo, hi, ended)[1..] == Queue(job, lo + 1, hi, ended)
  {
  }

  lemma DeliverFrame(job: Job, s: System, d: nat)
    requires job.Valid() && s.sender.Some? && Streaming(job, s, d) && s.channel != []
    requires d < s.sender.value.chunksSent <= job.Total()
    ensures Streaming(job, Step(job, s, Deliver), d + 1)
  {
    hide ReceiverAt, Receive, Queue;
    QueueHead(job, d, s.sender.value.chunksSent, s.sender.value.status.Completed?);
    ChunkArrives(job, s.receiver, d);
  }

  lemma DeliverEnd(job: Job, s: System, d: nat)
    requires job.Valid() && s.sender.Some? && Streaming(job, s, d) && s.channel != []
    requires d == s.sender.value.chunksSent && (s.sender.value.status.Completed? ==> d == job.Total())
    ensures Streaming(job, Step(job, s, Deliver), d)
  {
    hide ReceiverAt, Receive, Queue;
    QueueEnd(job, d, s.sender.value.status.Completed?);
    if s.sender.value.status.Completed? {
      CompleteArrives(job, s.receiver);
    }
  }

  lemma DeliverStreaming(job: Job, s: System, d: nat) returns (d': nat)
    requires job.Valid() && s.sender.Some? && Streaming(job, s, d) && s.channel != []
    requires s.sender.value.chunksSent <= job.Total()
    requires s.sender.value.status.Completed? ==> s.sender.value.chunksSent == job.Total()
    ensures Streaming(job, Step(job, s, Deliver), d')
  {
    if d < s.sender.value.chunksSent {
      hide Step;
      DeliverFrame(job, s, d);
      d' := d + 1;
    } else {
      hide Step;
      DeliverEnd(job, s, d);
      d' := d;
    }
  }

  lemma QueueEnd(job: Job, n: nat, ended: bool)
    requires job.Valid()
    ensures Queue(job, n, n, ended) == if ended then [CompleteMsg(job.id)] else []
  {
  }

  lemma SendStreaming(job: Job, s: System, d: nat)
    requires job.Valid() && s.sender.Some? && Streaming(job, s, d) && s.sender.value.status.Sending?
    ensures s.sender.value.chunksSent < job.Total() ==> Streaming(job, Step(job, s, SendChunk), d)
    ensures s.sender.value.chunksSent == job.Total() ==> Streaming(job, Step(job, s, Finish), d)
  {
    var n := s.sender.value.chunksSent;
    assert job.Packets(d, n + 1) == job.Packets(d, n) + [job.PacketAt(n)];
  }

  lemma AcceptOffer(job: Job, s: System)
    requires job.Valid() && s.sender.Some? && Offering(job, s)
    ensures Offering(job, Step(job, s, Accept))
  {
    assert Slices(job.file, 0, 0, job.chunkSize) == [];
  }

  lemma BeforeOffer(job: Job, s: System, a: Action)
    requires job.Valid() && Inv(job, s) && s.sender.None?
    ensures Inv(job, Step(job, s, a))
  {
  }

  lemma WhileOffered(job: Job, s: System, a: Action)
    requires job.Valid() && Inv(job, s) && s.sender.Some? && s.sender.value.status.Offered?
    ensures Inv(job, Step(job, s, a))
  {
    match a
    case Accept => AcceptOffer(job, s);
    case DeliverReady =>
      if s.readies == 1 {
        var s' := Step(job, s, a);
        assert s'.channel == Queue(job, 0, 0, false);
        assert Streaming(job, s', 0);
      }
    case _ =>
  }

  lemma WhileStreaming(job: Job, s: System, a: Action)
    requires job.Valid() && Inv(job, s) && s.sender.Some? && !s.sender.value.status.Offered?
    ensures Inv(job, Step(job, s, a))
  {
    var p, s' := s.sender.value, Step(job, s, a);
    var d :| Streaming(job, s, d);
    match a
    case Deliver =>
      if s.channel != [] {
        hide Streaming, Receive;
        var d' := DeliverStreaming(job, s, d);
      }
    case SendChunk =>
      if p.status.Sending? && p.chunksSent < job.Total() {
        hide Streaming;
        SendStreaming(job, s, d);
      }
    case Finish =>
      if p.status.Sending? && p.chunksSent == job.Total() {
        hide Streaming;
        SendStreaming(job, s, d);
      }
    case SendFails =>
      if p.status.Sending? {
        assert Streaming(job, s', d);
      }
    case Accept =>
      assert s' == s;
    case _ =>
  }

  lemma StepKeepsInv(job: Job, s: System, a: Action)
    requires job.Valid() && Inv(job, s)
    ensures Inv(job, Step(job, s, a))
  {
    hide Step, Inv;
    if s.sender.None? {
      BeforeOffer(job, s, a);
    } else if s.sender.value.status.Offered? {
      WhileOffered(job, s, a);
    } else {
      WhileStreaming(job, s, a);
    }
  }

  lemma {:induction false} RunKeepsInv(job: Job, s: System, actions: seq<Action>)
    requires job.Valid() && Initial(job, s)
    ensures Inv(job, Run(job, s, actions))
  {
    if actions != [] {
      RunKeepsInv(job, s, actions[..|actions| - 1]);
      StepKeepsInv(job, Run(job, s, actions[..|actions| - 1]), actions[|actions| - 1]);
    }
  }

  // What it means for the user.

  /** The payload bytes of the chunk frames in a stretch of the channel. */
  function Payloads(channel: seq<Wire>): Bytes
  {
    if channel == [] then [] else
      (match channel[0]
       case ChunkMsg(p) => (var c := ParsePacket(p); if c.Some? then c.value.data else [])
       case _ => [])
      + Payloads(channel[1..])
  }

  /** The bytes the receiver has so far, in memory or in the finished blob. */
  function Received(job: Job, r: Receiver): Bytes
  {
    if job.id in r.transfers && r.transfers[job.id].status.Completed? && r.transfers[job.id].blob.Some?
    then r.transfers[job.id].blob.value
    else Flatten(StoredChunks(r, job.id))
  }

  lemma {:induction false} PayloadsOfPackets(job: Job, lo: nat, hi: nat, ended: bool)
    requires job.Valid() && lo <= hi
    ensures Payloads(Queue(job, lo, hi, ended)) + Rest(job.file, hi, job.chunkSize) == Rest(job.file, lo, job.chunkSize)
    decreases hi - lo
  {
    if lo < hi {
      QueueHead(job, lo, hi, ended);
      PayloadsOfPackets(job, lo + 1, hi, ended);
      ParseOfPacket(Chunk(job.id, lo, job.Total(), SliceFile(job.file, lo, job.chunkSize)));
      SplitRest(job.file, lo, job.chunkSize);
      AppendAssociative(SliceFile(job.file, lo, job.chunkSize), Payloads(Queue(job, lo + 1, hi, ended)), Rest(job.file, hi, job.chunkSize));
    } else {
      assert Payloads(Queue(job, lo, hi, ended)) == [];
    }
  }

  lemma AppendAssociative(a: Bytes, b: Bytes, c: Bytes)
    ensures (a + b) + c == a + (b + c)
  {
  }

  /**
   Conservation: with a carried id, at every step what the receiver has, what the channel
   carries and what the sender has not sent yet make up the file.
   */
  lemma {:induction false} NothingLost(job: Job, s: System, actions: seq<Action>)
    requires job.Valid() && CarriedId(job.id) && Initial(job, s)
    ensures var now := Run(job, s, actions);
      var sent := if now.sender.Some? then now.sender.value.chunksSent else 0;
      Received(job, now.receiver) + (Payloads(now.channel) + Rest(job.file, sent, job.chunkSize)) == job.file
  {
    hide Packet, ParsePacket, SliceFile;
    RunKeepsInv(job, s, actions);
    var now := Run(job, s, actions);
    assert Rest(job.file, 0, job.chunkSize) == job.file;
    if now.sender.Some? && !now.sender.value.status.Offered? {
      var d :| Streaming(job, now, d);
      var n := now.sender.value.chunksSent;
      SlicesAndRest(job.file, 0, d, job.chunkSize);
      PayloadsOfPackets(job, d, n, now.sender.value.status.Completed?);
      assert now.channel == [] && d == n ==> Payloads(now.channel) + Rest(job.file, n, job.chunkSize) == Rest(job.file, d, job.chunkSize);
    } else {
      assert Payloads(now.channel) == [];
      assert Received(job, now.receiver) == [] by {
        assert Slices(job.file, 0, 0, job.chunkSize) == [];
      }
    }
  }

  /**
   A transfer the receiver marks completed holds exactly the file that was sent if and only if
   the frame carries the id, or the file is empty; otherwise it holds nothing.
   */
  lemma {:induction false} CompletedHoldsFileIff(job: Job, s: System, actions: seq<Action>)
    requires job.Valid() && Initial(job, s)
    requires var r := Run(job, s, actions).receiver; job.id in r.transfers && r.transfers[job.id].status.Completed?
    ensures var t := Run(job, s, actions).receiver.transfers[job.id];
      && t.blob == Some(if CarriedId(job.id) then job.file else [])
      && (t.blob == Some(job.file) <==> CarriedId(job.id) || job.file == [])
      && (CarriedId(job.id) ==> t.bytesReceived == t.fileSize == |job.file|)
  {
    RunKeepsInv(job, s, actions);
    var now := Run(job, s, actions);
    assert now.sender.Some? && !now.sender.value.status.Offered?;
    var d :| Streaming(job, now, d);
    ChunksMakeFile(job.file, job.chunkSize);
    BytesInIsLength(job, job.Total());
    assert Slices(job.file, 0, 0, job.chunkSize) == [];
  }

  /** Once the sender is done and the channel has drained, the transfer is completed. */
  lemma {:induction false} DrainedIsCompleted(job: Job, s: System, actions: seq<Action>)
    requires job.Valid() && Initial(job, s)
    requires var now := Run(job, s, actions);
      now.channel == [] && now.sender.Some? && now.sender.value.status.Completed?
    ensures var now := Run(job, s, actions);
      && job.id in now.receiver.transfers && now.receiver.transfers[job.id].status.Completed?
      && now.sender.value == Recipient(Completed, job.Total(), |job.file|)
  {
    RunKeepsInv(job, s, actions);
    var now := Run(job, s, actions);
    var d :| Streaming(job, now, d);
    BytesInIsLength(job, job.Total());
    ChunksMakeFile(job.file, job.chunkSize);
  }
}
