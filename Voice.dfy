/**
 * The voice side of the assistant (`useVoice`): a FIFO of synthesized speech clips played
 * one at a time, and the status shown to the user. Browser callbacks (a recognition
 * result, an audio element's `ended` event, a rejected `play()`, a backend call settling)
 * are methods the environment calls; browser capabilities are parameters.
 */
module Voice {
  import opened Wrappers

  datatype Status = Idle | Listening | Thinking | Speaking | Error

  /** An audio blob; its bytes are never interpreted here. */
  datatype Clip = Clip(data: string)

  /** How a dequeued clip left the player: it played to its end, or `play()` was rejected. */
  datatype Playback = Ended(clip: Clip) | Failed(clip: Clip)

  function ClipsOf(ps: seq<Playback>): (cs: seq<Clip>)
    ensures |cs| == |ps|
  {
    if ps == [] then [] else [ps[0].clip] + ClipsOf(ps[1..])
  }

  lemma ClipsOfSnoc(ps: seq<Playback>, p: Playback)
    ensures ClipsOf(ps + [p]) == ClipsOf(ps) + [p.clip]
  {
    if ps != [] {
      assert (ps + [p])[1..] == ps[1..] + [p];
      ClipsOfSnoc(ps[1..], p);
    } else {
      assert [p][1..] == [];
    }
  }

  /** Every clip of `cs`, played to its end, in order. */
  function AllEnded(cs: seq<Clip>): (ps: seq<Playback>)
    ensures |ps| == |cs|
  {
    if cs == [] then [] else [Ended(cs[0])] + AllEnded(cs[1..])
  }

  function EndedCount(ps: seq<Playback>): nat {
    if ps == [] then 0 else (if ps[0].Ended? then 1 else 0) + EndedCount(ps[1..])
  }

  function FailedCount(ps: seq<Playback>): nat {
    if ps == [] then 0 else (if ps[0].Failed? then 1 else 0) + FailedCount(ps[1..])
  }

  /**
   * Every clip ever enqueued is accounted for exactly once: played to its end, failed,
   * playing now, or still queued.
   */
  lemma EveryClipAccountedFor(agent: VoiceAgent)
    requires agent.Valid()
    ensures |agent.enqueued|
         == EndedCount(agent.finished) + FailedCount(agent.finished) + |agent.Playing()| + |agent.queue|
  {
    PlaybacksSplit(agent.finished);
  }

  lemma {:induction false} PlaybacksSplit(ps: seq<Playback>)
    ensures EndedCount(ps) + FailedCount(ps) == |ps|
  {
    if ps != [] {
      PlaybacksSplit(ps[1..]);
    }
  }

  /** The JSON body of the image endpoint's reply (`reply`, `audio_b64`, `ocr_text`, each optional). */
  datatype AgentReply = AgentReply(reply: Option<string>, audioB64: Option<string>, ocrText: Option<string>)

  /**
   * The clip an image reply asks to be played: only a present, non-empty `audio_b64`
   * counts (the empty string is falsy); the payload stands for its decoded bytes.
   */
  function ReplyClip(r: AgentReply): (c: Option<Clip>)
    ensures c.Some? <==> r.audioB64.Some? && r.audioB64.value != ""
    ensures c.Some? ==> c.value == Clip(r.audioB64.value)
  {
    match r.audioB64
    case Some(b64) => if b64 == "" then None else Some(Clip(b64))
    case None => None
  }

  /** The recognized utterance: the first alternative of every result, joined without separator. */
  function Transcript(firstAlternatives: seq<string>): (t: string)
    ensures firstAlternatives == [] ==> t == ""
    ensures firstAlternatives != [] ==>
      |firstAlternatives[0]| <= |t| && t[..|firstAlternatives[0]|] == firstAlternatives[0]
  {
    if firstAlternatives == [] then ""
    else firstAlternatives[0] + Transcript(firstAlternatives[1..])
  }

  /** Results delivered in two batches give the same utterance as all of them at once. */
  lemma {:induction false} TranscriptConcat(a: seq<string>, b: seq<string>)
    ensures Transcript(a + b) == Transcript(a) + Transcript(b)
    decreases |a|
  {
    if a == [] {
      assert a + b == b;
    } else {
      assert (a + b)[1..] == a[1..] + b;
      TranscriptConcat(a[1..], b);
    }
  }

  /** The state of `useVoice`: its status, the audio queue and the playing flag. */
  class VoiceAgent {
    var status: Status
    var queue: seq<Clip>
    var isPlaying: bool
    /** The clip whose audio element was started and has neither ended nor failed. */
    var current: Option<Clip>
    /** Whether the browser offers speech recognition. */
    const recognitionAvailable: bool
    /** Every clip ever enqueued, in order. */
    ghost var enqueued: seq<Clip>
    /** Every clip that left the player, in order, with how it left. */
    ghost var finished: seq<Playback>

    function Playing(): seq<Clip>
      reads this
    {
      if current.Some? then [current.value] else []
    }

    /**
     * At most one clip is playing, and only while the flag is set; the clips ever enqueued
     * are, in order, those that finished, the one playing, and those still queued.
     */
    ghost predicate Valid()
      reads this
    {
      && (isPlaying <==> current.Some?)
      && enqueued == ClipsOf(finished) + Playing() + queue
    }

    constructor (recognitionAvailable: bool)
      ensures Valid()
      ensures this.recognitionAvailable == recognitionAvailable
      ensures status == Idle && queue == [] && !isPlaying
      ensures enqueued == [] && finished == []
    {
      this.recognitionAvailable := recognitionAvailable;
      status, queue, isPlaying, current := Idle, [], false, None;
      enqueued, finished := [], [];
    }

    /** `startListening`; `startThrows` is whether the recognizer's `start()` throws. */
    method StartListening(startThrows: bool)
      modifies this`status
      ensures status == if recognitionAvailable && !startThrows then Listening else old(status)
    {
      if recognitionAvailable && !startThrows {
        status := Listening;
      }
    }

    /** `stopListening`; `stopThrows` is whether the recognizer's `stop()` throws. */
    method StopListening(stopThrows: bool)
      modifies this`status
      ensures status == if recognitionAvailable && !stopThrows then Idle else old(status)
    {
      if recognitionAvailable && !stopThrows {
        status := Idle;
      }
    }

    /** `enqueueAudio`: the clip joins the tail; if nothing is playing, the head starts at once. */
    method EnqueueAudio(clip: Clip)
      requires Valid()
      modifies this
      ensures Valid()
      ensures enqueued == old(enqueued) + [clip] && finished == old(finished)
      ensures old(isPlaying) ==>
        isPlaying && current == old(current) && queue == old(queue) + [clip] && status == old(status)
      ensures !old(isPlaying) ==>
        && isPlaying && current == Some((old(queue) + [clip])[0])
        && queue == (old(queue) + [clip])[1..] && status == Speaking
    {
      queue := queue + [clip];
      enqueued := enqueued + [clip];
      if !isPlaying {
        PlayNext();
      }
    }

    /** `playNext`: dequeue the head and start it, or go idle when the queue is empty. */
    method PlayNext()
      requires Valid() && !isPlaying
      modifies this
      ensures Valid()
      ensures enqueued == old(enqueued) && finished == old(finished)
      ensures Playing() + queue == old(queue)
      ensures old(queue) == [] ==> !isPlaying && queue == [] && status == Idle
      ensures old(queue) != [] ==>
        isPlaying && current == Some(old(queue)[0]) && queue == old(queue)[1..] && status == Speaking
    {
      if queue == [] {
        isPlaying := false;
        status := Idle;
        return;
      }
      current := Some(queue[0]);
      queue := queue[1..];
      isPlaying := true;
      status := Speaking;
    }

    /** The playing clip's `ended` event: it is finished, and the next one starts or the player idles. */
    method OnEnded()
      requires Valid() && isPlaying
      modifies this
      ensures Valid()
      ensures enqueued == old(enqueued) && finished == old(finished) + [Ended(old(current).value)]
      ensures Playing() + queue == old(queue)
      ensures old(queue) == [] ==> !isPlaying && status == Idle
      ensures old(queue) != [] ==> isPlaying && status == Speaking
    {
      ClipsOfSnoc(finished, Ended(current.value));
      finished := finished + [Ended(current.value)];
      current := None;
      isPlaying := false;
      PlayNext();
    }

    /**
     * The playing clip's `play()` was rejected: the clip is dropped, the status shows the
     * error, and the queue does not advance; the remaining clips wait for the next enqueue.
     */
    method OnPlayFailed()
      requires Valid() && isPlaying
      modifies this
      ensures Valid()
      ensures enqueued == old(enqueued) && finished == old(finished) + [Failed(old(current).value)]
      ensures !isPlaying && queue == old(queue) && status == Error
    {
      ClipsOfSnoc(finished, Failed(current.value));
      finished := finished + [Failed(current.value)];
      current := None;
      status := Error;
      isPlaying := false;
    }

    /**
     * The intended failure handling: the rejected clip is dropped and the queue moves on
     * to the next clip exactly as when a clip ends.
     */
    method OnPlayFailedAndAdvance()
      requires Valid() && isPlaying
      modifies this
      ensures Valid()
      ensures enqueued == old(enqueued) && finished == old(finished) + [Failed(old(current).value)]
      ensures old(queue) == [] ==> !isPlaying && queue == [] && status == Idle
      ensures old(queue) != [] ==>
        isPlaying && current == Some(old(queue)[0]) && queue == old(queue)[1..] && status == Speaking
    {
      ClipsOfSnoc(finished, Failed(current.value));
      finished := finished + [Failed(current.value)];
      current := None;
      status := Error;
      isPlaying := false;
      PlayNext();
    }

    /**
     * The chain of `ended` events when every clip plays to its end: if a clip is playing,
     * it and every queued clip play in enqueue order and the player ends idle; if none is
     * playing, nothing starts, even with clips queued.
     */
    method PlayQueueToEnd()
      requires Valid()
      modifies this
      ensures Valid() && enqueued == old(enqueued)
      ensures old(isPlaying) ==>
        && !isPlaying && queue == [] && status == Idle
        && finished == old(finished) + AllEnded(old(Playing()) + old(queue))
      ensures !old(isPlaying) ==>
        !isPlaying && queue == old(queue) && status == old(status) && finished == old(finished)
    {
      if isPlaying {
        EndEveryClip();
      }
    }

    /** The `ended` chain from a playing clip: it and every queued clip end, in order. */
    method EndEveryClip()
      requires Valid() && isPlaying
      modifies this
      ensures Valid() && enqueued == old(enqueued)
      ensures !isPlaying && queue == [] && status == Idle
      ensures finished == old(finished) + AllEnded(old(Playing()) + old(queue))
    {
      ghost var toPlay := Playing() + queue;
      ghost var played := [];
      assert toPlay == played + (Playing() + queue);
      while isPlaying
        invariant Valid() && enqueued == old(enqueued)
        invariant toPlay == played + (Playing() + queue)
        invariant finished == old(finished) + AllEnded(played)
        invariant !isPlaying ==> status == Idle && queue == []
        decreases |queue| + |Playing()|
      {
        ghost var c := current.value;
        assert Playing() + queue == [c] + queue;
        ChainStep(toPlay, played, c, queue, old(finished));
        played := played + [c];
        OnEnded();
      }
      assert Playing() + queue == [];
      assert toPlay == played + [] == played;
    }

    /**
     * `onresult`: the status turns to thinking and the utterance is sent to speech synthesis.
     * The handler is installed only when the browser offers recognition.
     */
    method OnRecognized(firstAlternatives: seq<string>) returns (utterance: string)
      requires recognitionAvailable
      modifies this`status
      ensures status == Thinking && utterance == Transcript(firstAlternatives)
    {
      status := Thinking;
      utterance := Transcript(firstAlternatives);
    }

    /**
     * The speech synthesis call of `onresult` settled: its clip is enqueued, a failure shown.
     * Only a recognition result issues that call.
     */
    method OnSpeechSynthesized(result: Result<Clip, string>)
      requires Valid() && recognitionAvailable
      modifies this
      ensures Valid() && finished == old(finished)
      ensures result.Failure? ==>
        status == Error && enqueued == old(enqueued) && queue == old(queue) && isPlaying == old(isPlaying)
      ensures result.Success? ==> enqueued == old(enqueued) + [result.value] && isPlaying
      ensures result.Success? && old(isPlaying) ==> status == old(status) && current == old(current)
      ensures result.Success? && !old(isPlaying) ==> status == Speaking
    {
      match result {
        case Success(clip) => EnqueueAudio(clip);
        case Failure(_) => status := Error;
      }
    }

    /** `sendImageToAgent` up to its `await`; building the upload form is not modelled. */
    method SendImageToAgent()
      modifies this`status
      ensures status == Thinking
    {
      status := Thinking;
    }

    /** The image call settled: a non-empty audio payload is enqueued, a failure shown, otherwise nothing. */
    method OnAgentReply(result: Result<AgentReply, string>)
      requires Valid()
      modifies this
      ensures Valid() && finished == old(finished)
      ensures result.Failure? ==>
        status == Error && enqueued == old(enqueued) && queue == old(queue) && isPlaying == old(isPlaying)
      ensures result.Success? && ReplyClip(result.value).None? ==>
        status == old(status) && enqueued == old(enqueued) && queue == old(queue) && isPlaying == old(isPlaying)
      ensures result.Success? && ReplyClip(result.value).Some? ==>
        enqueued == old(enqueued) + [ReplyClip(result.value).value] && isPlaying
      ensures result.Success? && ReplyClip(result.value).Some? && old(isPlaying) ==>
        status == old(status) && current == old(current)
      ensures result.Success? && ReplyClip(result.value).Some? && !old(isPlaying) ==> status == Speaking
    {
      match result {
        case Success(reply) =>
          var clip := ReplyClip(reply);
          if clip.Some? {
            EnqueueAudio(clip.value);
          }
        case Failure(_) => status := Error;
      }
    }
  }

  /** One `ended` event of the chain, on the ghost logs: the clip moves from to-play to played. */
  lemma ChainStep(toPlay: seq<Clip>, played: seq<Clip>, c: Clip, rest: seq<Clip>, before: seq<Playback>)
    requires toPlay == played + ([c] + rest)
    ensures toPlay == (played + [c]) + rest
    ensures before + AllEnded(played) + [Ended(c)] == before + AllEnded(played + [c])
  {
    AllEndedSnoc(played, c);
  }

  lemma {:induction false} AllEndedSnoc(cs: seq<Clip>, c: Clip)
    ensures AllEnded(cs + [c]) == AllEnded(cs) + [Ended(c)]
    decreases |cs|
  {
    if cs == [] {
      assert [c][1..] == [];
    } else {
      assert (cs + [c])[1..] == cs[1..] + [c];
      AllEndedSnoc(cs[1..], c);
    }
  }

  /** Clips play strictly in the order they were enqueued, even when all arrive while another plays. */
  method PlaysInEnqueueOrder(a: Clip, b: Clip, c: Clip) returns (agent: VoiceAgent)
    ensures agent.Valid() && agent.status == Idle && agent.queue == []
    ensures agent.finished == [Ended(a), Ended(b), Ended(c)]
  {
    agent := new VoiceAgent(false);
    agent.EnqueueAudio(a);
    agent.EnqueueAudio(b);
    agent.EnqueueAudio(c);
    agent.PlayQueueToEnd();
    assert AllEnded([a, b, c]) == [Ended(a)] + AllEnded([b, c]);
    assert AllEnded([b, c]) == [Ended(b)] + AllEnded([c]);
  }

  /** As written, a rejected `play()` of the first clip leaves the second queued and nothing playing. */
  method FailedClipStallsQueue(a: Clip, b: Clip) returns (agent: VoiceAgent)
    ensures agent.Valid() && agent.status == Error
    ensures !agent.isPlaying && agent.queue == [b] && agent.finished == [Failed(a)]
  {
    agent := new VoiceAgent(false);
    agent.EnqueueAudio(a);
    agent.EnqueueAudio(b);
    agent.OnPlayFailed();
    agent.PlayQueueToEnd();
  }

  /** With the intended handling, the second clip starts right after the first one fails. */
  method FailedClipSkipped(a: Clip, b: Clip) returns (agent: VoiceAgent)
    ensures agent.Valid() && agent.status == Speaking
    ensures agent.isPlaying && agent.current == Some(b) && agent.queue == [] && agent.finished == [Failed(a)]
  {
    agent := new VoiceAgent(false);
    agent.EnqueueAudio(a);
    agent.EnqueueAudio(b);
    agent.OnPlayFailedAndAdvance();
  }
}
