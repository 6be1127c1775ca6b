/** The media source: a byte stream turned into a queue of transport chunks, handed out in
    order. Reading files and running a transcoder is not modelled; the loaded bytes come in. */
module Source {
  import opened Wire
  import opened AnnexB
  import opened FrameCapture
  import opened Adts

  datatype SourceState = SourceState(isOpen: bool, eof: bool, pending: seq<MediaChunk>, cursor: nat)

  predicate Sound(s: SourceState) {
    s.cursor <= |s.pending| && (s.isOpen ==> (s.eof <==> s.cursor == |s.pending|))
  }

  /** A source that has been opened, as a session is only ever given one. */
  type OpenSource = s: SourceState | s.isOpen && Sound(s) witness SourceState(true, true, [], 0)

  function Duration(fps: uint32): nat { 1_000_000 / (if fps > 0 then fps else 30) }

  /** What an open source starts from. */
  function Loaded(video: seq<byte>, fps: uint32): OpenSource {
    var q := Queue(Units(video), 0, Duration(fps));
    SourceState(true, q == [], q, 0)
  }

  function TakeCount(s: SourceState, max: nat): (n: nat)
    requires Sound(s)
    ensures s.cursor + n <= |s.pending|
  {
    if !s.isOpen || s.eof then 0 else if max < |s.pending| - s.cursor then max else |s.pending| - s.cursor
  }

  function NextOut(s: SourceState, max: nat): seq<MediaChunk>
    requires Sound(s)
  {
    s.pending[s.cursor..s.cursor + TakeCount(s, max)]
  }

  function NextState(s: SourceState, max: nat): (t: SourceState)
    requires Sound(s)
    ensures Sound(t) && t.isOpen == s.isOpen
  {
    if !s.isOpen || s.eof then s else
    var cursor := s.cursor + TakeCount(s, max);
    s.(cursor := cursor, eof := cursor == |s.pending|)
  }

  class MediaSource {
    const frameDurationUs: nat
    var frameIndex: nat
    var eof: bool
    var isOpen: bool
    var annexB: seq<byte>
    var pending: seq<MediaChunk>
    var pendingCursor: nat
    var adts: seq<byte>
    var audioPending: seq<AudioChunk>
    var audioCursor: nat

    function State(): SourceState
      reads this
    {
      SourceState(isOpen, eof, pending, pendingCursor)
    }

    predicate Valid()
      reads this
    {
      Sound(State()) && audioCursor <= |audioPending|
    }

    constructor (fps: uint32)
      ensures Valid() && !isOpen && frameIndex == 0 && frameDurationUs == Duration(fps)
    {
      frameDurationUs := Duration(fps);
      frameIndex, eof, isOpen := 0, false, false;
      annexB, pending, pendingCursor := [], [], 0;
      adts, audioPending, audioCursor := [], [], 0;
    }

    /** Opens the source on loaded bytes; a raw byte stream has no audio track. */
    method Open(video: seq<byte>, audio: seq<byte>, raw: bool) returns (ok: bool)
      requires Valid()
      modifies this
      ensures Valid() && ok == isOpen == (old(isOpen) || video != [])
      ensures !old(isOpen) && ok ==> annexB == video && audioCursor == 0
      ensures !old(isOpen) && ok ==>
        State() == SourceState(true, pending == [], Queue(Units(video), old(frameIndex), frameDurationUs), 0)
      ensures !old(isOpen) && ok && !raw ==> audioPending == Split(audio)
    {
      if isOpen {
        return true;
      }
      annexB := video;
      adts := if raw then [] else audio;
      isOpen := annexB != [];
      if isOpen {
        BuildChunkQueue();
        if !raw {
          audioPending := BuildAudioQueue(adts);
        }
        audioCursor := 0;
      }
      ok := isOpen;
    }

    method BuildChunkQueue()
      modifies this`pending, this`pendingCursor, this`frameIndex, this`eof
      ensures pending == Queue(Units(annexB), old(frameIndex), frameDurationUs)
      ensures pendingCursor == 0 && eof == (pending == [])
    {
      pending := [];
      pendingCursor := 0;
      var units := Scan(annexB);
      ghost var contents := Slices(annexB, units);
      ghost var whole := Queue(contents, frameIndex, frameDurationUs);
      var k := 0;
      while k < |units|
        invariant k <= |units| && pendingCursor == 0
        invariant whole == pending + Queue(contents[k..], frameIndex, frameDurationUs)
      {
        ScanTiles(annexB, 0);
        SliceAt(annexB, NextCode(annexB, 0), units, k);
        var unit := annexB[units[k].offset..End(units[k])];
        QueueStep(contents, k, frameIndex, frameDurationUs);
        Assoc(pending, UnitChunks(unit, frameIndex, frameDurationUs),
              Queue(contents[k + 1..], NextIndex(unit, frameIndex), frameDurationUs));
        EnqueueUnit(units[k].frameType, unit);
        k := k + 1;
      }
      assert contents[|units|..] == [];
      assert pending + [] == pending;
      eof := pending == [];
    }

    /** The body of the queue loop: times one unit and cuts it up. */
    method EnqueueUnit(ft: FrameType, unit: seq<byte>)
      requires ft == UnitType(unit)
      modifies this`pending, this`frameIndex
      ensures pending == old(pending) + UnitChunks(unit, old(frameIndex), frameDurationUs)
      ensures frameIndex == NextIndex(unit, old(frameIndex))
    {
      var pts: uint64 := 0;
      if ft == Keyframe || ft == PFrame {
        pts := U64(frameIndex * frameDurationUs);
        frameIndex := frameIndex + 1;
      }
      var pieces := ChunkPayload(START_CODE + unit);
      AppendPieces(pieces, ft, pts);
    }

    /** The inner loop: every piece of one unit joins the queue. */
    method AppendPieces(pieces: seq<seq<byte>>, ft: FrameType, pts: uint64)
      modifies this`pending
      ensures pending == old(pending) + Wrap(pieces, ft, pts)
    {
      ghost var before := pending;
      for i := 0 to |pieces|
        invariant pending == before + Wrap(pieces[..i], ft, pts)
      {
        WrapSnoc(pieces[..i], pieces[i], ft, pts);
        assert pieces[..i + 1] == pieces[..i] + [pieces[i]];
        Assoc(before, Wrap(pieces[..i], ft, pts), [MediaChunk(pieces[i], ft, pts)]);
        pending := pending + [MediaChunk(pieces[i], ft, pts)];
      }
      assert pieces[..|pieces|] == pieces;
    }

    method NextChunks(max: nat) returns (out: seq<MediaChunk>)
      requires Valid()
      modifies this`pendingCursor, this`eof
      ensures Valid() && out == NextOut(old(State()), max) && State() == NextState(old(State()), max)
    {
      out := [];
      if !isOpen || eof {
        return;
      }
      ghost var start := pendingCursor;
      while |out| < max && pendingCursor < |pending|
        invariant start <= pendingCursor <= |pending| && |out| <= max && !eof
        invariant out == pending[start..pendingCursor]
      {
        out := out + [pending[pendingCursor]];
        pendingCursor := pendingCursor + 1;
      }
      if pendingCursor >= |pending| {
        eof := true;
      }
    }

    method NextAudioChunks(max: nat) returns (out: seq<AudioChunk>)
      requires Valid()
      modifies this`audioCursor
      ensures Valid() && old(audioCursor) <= audioCursor
      ensures out == audioPending[old(audioCursor)..audioCursor]
      ensures audioCursor == |audioPending| || |out| == max
    {
      out := [];
      ghost var start := audioCursor;
      while |out| < max && audioCursor < |audioPending|
        invariant start <= audioCursor <= |audioPending| && |out| <= max
        invariant out == audioPending[start..audioCursor]
      {
        out := out + [audioPending[audioCursor]];
        audioCursor := audioCursor + 1;
      }
    }
  }

  /** The frame duration in whole microseconds, for 30 frames a second when none is given. */
  lemma DurationIs(fps: uint32)
    ensures var f: int := if fps == 0 then 30 else fps; Duration(fps) * f <= 1_000_000 < (Duration(fps) + 1) * f
  {
  }

  /** An open source hands out the next `max` chunks, or what is left, and is at its end as soon as
      nothing is. */
  lemma HandsOut(s: SourceState, max: nat)
    requires Sound(s) && s.isOpen
    ensures var left := |s.pending| - s.cursor;
      |NextOut(s, max)| == (if max < left then max else left) && NextOut(s, max) <= s.pending[s.cursor..] &&
      NextState(s, max) == s.(cursor := s.cursor + |NextOut(s, max)|, eof := max >= left)
  {
  }

  lemma {:induction false} WrapSnoc(pieces: seq<seq<byte>>, p: seq<byte>, ft: FrameType, pts: uint64)
    ensures Wrap(pieces + [p], ft, pts) == Wrap(pieces, ft, pts) + [MediaChunk(p, ft, pts)]
  {
    if pieces == [] {
      assert pieces + [p] == [p] && [p][1..] == [];
    } else {
      assert (pieces + [p])[1..] == pieces[1..] + [p];
      WrapSnoc(pieces[1..], p, ft, pts);
    }
  }

  lemma QueueStep(us: seq<seq<byte>>, k: nat, index: nat, duration: nat)
    requires k < |us|
    ensures Queue(us[k..], index, duration)
      == UnitChunks(us[k], index, duration) + Queue(us[k + 1..], NextIndex(us[k], index), duration)
  {
    assert us[k..][1..] == us[k + 1..];
  }

  /** The `k`-th unit of a tiling, its label, and its bytes. */
  lemma {:induction false} SliceAt(d: seq<byte>, at: nat, us: seq<NalUnit>, k: nat)
    requires at <= |d| && Tiles(d, at, us) && k < |us|
    ensures End(us[k]) <= |d| && 0 < us[k].length && Slices(d, us)[k] == d[us[k].offset..End(us[k])]
    ensures us[k].frameType == UnitType(Slices(d, us)[k])
    decreases k
  {
    if k > 0 { SliceAt(d, End(us[0]), us[1..], k - 1); }
  }
}
