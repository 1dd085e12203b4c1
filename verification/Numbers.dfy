/**
  Sequence numbers over whole runs. With one offer the messages of an upload form one chain, whatever stops or
  gets lost: requests count up from 2 modulo 65536 and every chunk echoes the number of its request.
 */
module Numbers {
  import opened Machine
  import opened Codec
  import opened Metadata
  import opened Storage
  import opened Handlers
  import opened Worker
  import opened Transfer

  /** The message that the action puts on a stream. */
  function Sends(t: Upload, h: HashFunction, s: State, a: Action): seq<Message>
    requires Enabled(t, s, a)
  {
    var s' := Apply(t, h, s, a);
    if (a.OfferFile? || a.Advance?) && a.id in s'.tokens && !s'.tokens[a.id].Serving? then [Carried(s'.tokens[a.id])] else []
  }

  /** All messages of a run, in the order in which they are sent. */
  function Log(t: Upload, h: HashFunction, s: State, acts: seq<Action>): seq<Message>
    requires Runs(t, h, s, acts)
    decreases |acts|
  {
    if acts == [] then [] else Sends(t, h, s, acts[0]) + Log(t, h, Apply(t, h, s, acts[0]), acts[1..])
  }

  /**
    `m` answers `prev`: a request counts up, a chunk echoes its request and carries those bytes of the file, a
    completion ends the chain. All messages name the same upload.
   */
  predicate Answers(t: Upload, prev: Message, m: Message) {
    && m.clientUuid == prev.clientUuid && m.fileName == prev.fileName
    && match prev.body
       case ChunkReq(first, _) =>
         && m.body.ChunkData? && m.body.idx == first && m.seqNumber == prev.seqNumber
         && first * 3968 < |t.content| && m.body.data == t.content[first * 3968..Min(|t.content|, first * 3968 + 3968)]
       case Complete => false
       case _ =>
         || (m.body.ChunkReq? && m.body.last == 65535 && m.seqNumber == (prev.seqNumber + 1) % 65536)
         || (m.body.Complete? && m.seqNumber == prev.seqNumber)
  }

  predicate Chain(t: Upload, log: seq<Message>) {
    forall i :: 0 < i < |log| ==> Answers(t, log[i - 1], log[i])
  }

  lemma ChainOn(t: Upload, m: Message, m': Message, log: seq<Message>)
    requires Answers(t, m, m') && Chain(t, [m'] + log)
    ensures Chain(t, [m] + ([m'] + log))
  {
    hide Answers;
    var all, rest := [m] + ([m'] + log), [m'] + log;
    forall i | 0 < i < |all|
      ensures Answers(t, all[i - 1], all[i])
    {
      if i > 1 {
        assert Answers(t, rest[i - 2], rest[i - 1]);
      }
    }
  }

  lemma OneLink(t: Upload, m: Message)
    ensures Chain(t, [m] + [])
  {
  }

  // ---------------------------------------------------------------- one message at a time

  lemma ServerAnswers(t: Upload, h: HashFunction, d: Files, w: Worker)
    requires Wf(w) && (w.m.body.Offer? || w.m.body.ChunkData?)
    ensures var r := Step(h, d, w); r.Finish? && r.reply.Some? ==> Answers(t, w.m, r.reply.value)
  {
    hide Look, WriteAt, WithBit, Accepts, ReadHeader;
  }

  lemma ClientAnswers(t: Upload, h: HashFunction, s: State, m: Message)
    requires KeyOf(m) == t.key && (m.body.ChunkReq? ==> m.body.first < INDEX_LIMIT)
    ensures var r := ClientHandle(t.key.uuid, ClientFiles(t, h, s), m).reply;
      r.Ok? && r.value.Some? ==> Answers(t, m, r.value.value)
  {
    ClientAnswersIff(t.key.uuid, ClientFiles(t, h, s), m);
  }

  /** A step of the only live message sends nothing and carries the same, or sends an answer. */
  lemma AdvanceAnswers(t: Upload, h: HashFunction, s: State, id: nat)
    requires Inv(t, h, s) && Enabled(t, s, Advance(id))
    ensures var s' := Apply(t, h, s, Advance(id));
      && s'.tokens.Keys <= s.tokens.Keys
      && var m, sent := Carried(s.tokens[id]), Sends(t, h, s, Advance(id));
      if id !in s'.tokens then sent == []
      else if sent == [] then Carried(s'.tokens[id]) == m
      else sent == [Carried(s'.tokens[id])] && Answers(t, m, sent[0])
  {
    assert TokenOk(t, h, s.disk, s.tokens[id]);
    match s.tokens[id]
    case ToServer(m) =>
    case Serving(w) =>
      ServerAnswers(t, h, s.disk, w);
      hide Answers, DiskOk, Sound, Step;
    case ToClient(m) =>
      ClientAnswers(t, h, s, m);
      hide Answers, DiskOk, Sound, ClientHandle;
  }

  lemma {:induction false} QuietLog(t: Upload, h: HashFunction, s: State, acts: seq<Action>)
    requires Runs(t, h, s, acts) && s.tokens == map[] && Offers(acts) == 0
    ensures Log(t, h, s, acts) == []
    decreases |acts|
  {
    if acts != [] {
      QuietLog(t, h, Apply(t, h, s, acts[0]), acts[1..]);
    }
  }

  lemma {:induction false} ChainFrom(t: Upload, h: HashFunction, s: State, id: nat, acts: seq<Action>)
    requires Offerable(t) && Inv(t, h, s) && Runs(t, h, s, acts) && s.tokens.Keys == {id} && Offers(acts) == 0
    ensures Chain(t, [Carried(s.tokens[id])] + Log(t, h, s, acts))
    decreases |acts|
  {
    if acts != [] {
      var a := acts[0];
      var s', m, sent := Apply(t, h, s, a), Carried(s.tokens[id]), Sends(t, h, s, a);
      var rest := Log(t, h, s', acts[1..]);
      ApplyKeepsInv(t, h, s, a);
      if a.Advance? {
        assert a.id in s.tokens.Keys;
        AdvanceAnswers(t, h, s, id);
      } else {
        assert sent == [];
        assert s'.tokens.Keys <= s.tokens.Keys;
        assert id in s'.tokens ==> s'.tokens[id] == s.tokens[id];
      }
      hide Apply, Enabled, Inv, Chain, Answers, Sends;
      if id in s'.tokens {
        ChainFrom(t, h, s', id, acts[1..]);
        if sent == [] {
          assert sent + rest == rest;
        } else {
          ChainOn(t, m, sent[0], rest);
        }
      } else {
        assert s'.tokens.Keys == {};
        QuietLog(t, h, s', acts[1..]);
        assert sent + rest == [];
        OneLink(t, m);
      }
    } else {
      OneLink(t, Carried(s.tokens[id]));
    }
  }

  // ---------------------------------------------------------------- runs with one offer

  lemma {:induction false} OneOfferFrom(t: Upload, h: HashFunction, s: State, acts: seq<Action>)
    requires Offerable(t) && Inv(t, h, s) && Runs(t, h, s, acts) && s.tokens == map[] && Offers(acts) <= 1
    ensures var log := Log(t, h, s, acts); Chain(t, log) && (log != [] ==> log[0] == BuildOffer(1, t.key.uuid, Local(t, h)))
    decreases |acts|
  {
    if acts != [] {
      var a := acts[0];
      var s' := Apply(t, h, s, a);
      ApplyKeepsInv(t, h, s, a);
      if a.OfferFile? {
        assert s'.tokens.Keys == {a.id};
        ChainFrom(t, h, s', a.id, acts[1..]);
      } else {
        assert Sends(t, h, s, a) == [];
        OneOfferFrom(t, h, s', acts[1..]);
      }
    }
  }

  /** The place of a message in the chain: requests at odd places, chunks at even ones, a completion only at the end. */
  predicate InPlace(t: Upload, h: HashFunction, log: seq<Message>, i: nat)
    requires Offerable(t) && i < |log|
  {
    var m := log[i];
    if i == 0 then m == Message(1, t.key.uuid, t.key.name, Offer(|t.content|, NumChunks(|t.content|), h(t.content)))
    else if i % 2 == 0 then
      m.body.ChunkData? && m.seqNumber == (1 + i / 2) % 65536 && log[i - 1].body.ChunkReq? && Answers(t, log[i - 1], m)
    else
      || (m.body.ChunkReq? && m.body.last == 65535 && m.seqNumber == (2 + i / 2) % 65536)
      || (m.body.Complete? && m.seqNumber == (1 + i / 2) % 65536 && i == |log| - 1)
  }

  lemma NextPlace(t: Upload, h: HashFunction, log: seq<Message>, i: nat)
    requires Offerable(t) && 0 < i < |log| && InPlace(t, h, log, i - 1) && Answers(t, log[i - 1], log[i])
    requires i + 1 < |log| ==> !log[i].body.Complete?
    ensures InPlace(t, h, log, i)
  {
    assert (i - 1) / 2 == (if i % 2 == 0 then i / 2 - 1 else i / 2);
    if i % 2 == 0 {
      assert i - 1 != 0 && (i - 1) % 2 == 1;
    } else {
      assert i - 1 == 0 || (i - 1) % 2 == 0;
    }
  }

  lemma {:induction false} ChainPlaces(t: Upload, h: HashFunction, log: seq<Message>, i: nat)
    requires Chain(t, log) && i < |log| && Offerable(t) && log[0] == BuildOffer(1, t.key.uuid, Local(t, h))
    ensures InPlace(t, h, log, i)
  {
    if i > 0 {
      ChainPlaces(t, h, log, i - 1);
      assert i + 1 < |log| ==> Answers(t, log[i + 1 - 1], log[i + 1]);
      hide InPlace;
      NextPlace(t, h, log, i);
    }
  }

  /**
    In any run with one offer, with stops and losses anywhere: the first message is the offer with number 1, the k-th
    request carries k + 1 modulo 65536, the chunk after it has the same number and the index asked for, and nothing
    follows a completion.
   */
  lemma NumbersCountUp(t: Upload, h: HashFunction, acts: seq<Action>, i: nat)
    requires Offerable(t) && Runs(t, h, INIT, acts) && Offers(acts) <= 1 && i < |Log(t, h, INIT, acts)|
    ensures InPlace(t, h, Log(t, h, INIT, acts), i)
  {
    OneOfferFrom(t, h, INIT, acts);
    ChainPlaces(t, h, Log(t, h, INIT, acts), i);
  }
}
