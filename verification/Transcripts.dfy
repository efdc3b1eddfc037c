/**
On and off the record. A conversation lives in the durable store, in the memory pool, or in
both; a switch decides which, and turns that began before the switch was thrown go on writing
where they started.
*/
module Transcripts {
  import opened Options
  import opened Text
  import opened EphemeralPool

  /** A conversation's row, with its title and its record switch, and the messages on disk. */
  datatype Session = Session(title: Message, record: bool, stored: seq<Message>)

  const NoTitle := Message("", true)

  function Untitled(record: bool, stored: seq<Message>): Session {
    Session(NoTitle, record, stored)
  }

  function OneLine(text: string): string {
    seq(|text|, i requires 0 <= i < |text| => if text[i] == '\n' then ' ' else text[i])
  }

  /** `Title`: the first question on one line, cut short. */
  function TitleOf(text: string): string {
    var line := TrimSpace(OneLine(text));
    if |line| <= 60 then line else line[..60] + "..."
  }

  /** Where a turn reads and writes, chosen once when the turn begins. */
  datatype Route = ToStore | ToMemory(persist: bool)

  datatype Turn = Turn(session: string, route: Route)

  datatype Chats = Chats(pool: Pool, sessions: map<string, Session>, turns: map<int, Turn>)

  /** `transcriptFor`: memory when off the record or held there already, otherwise the store. */
  function RouteFor(c: Chats, id: string): Route
    requires id in c.sessions
  {
    if !c.sessions[id].record || id in c.pool then ToMemory(c.sessions[id].record) else ToStore
  }

  function Tagged(texts: seq<string>, onRecord: bool): seq<Message> {
    seq(|texts|, i requires 0 <= i < |texts| => Message(texts[i], onRecord))
  }

  /** Writing to the durable store: nothing happens if it fails or the conversation is gone. */
  function Store(c: Chats, id: string, msgs: seq<Message>, fails: bool): Chats {
    if fails || id !in c.sessions then c
    else c.(sessions := c.sessions[id := c.sessions[id].(stored := c.sessions[id].stored + msgs)])
  }

  function Remember(c: Chats, id: string, msgs: seq<Message>, now: int, limits: Limits): Chats {
    c.(pool := Appended(c.pool, id, msgs, now, limits))
  }

  /** `Append` on either kind of transcript. */
  function Write(c: Chats, id: string, route: Route, msgs: seq<Message>, now: int, fails: bool, limits: Limits): Chats {
    match route
    case ToStore => Store(c, id, msgs, fails)
    case ToMemory(persist) =>
      var held := Remember(c, id, msgs, now, limits);
      if persist then Store(held, id, msgs, fails) else held
  }

  /** The first question put to a conversation without a title names it, on or off the record. */
  function Name(c: Chats, id: string, question: Option<string>, fails: bool): Chats {
    if question.Some? && id in c.sessions && c.sessions[id].title.text == "" && !fails then
      c.(sessions := c.sessions[id := c.sessions[id].(title := Message(TitleOf(question.value), c.sessions[id].record))])
    else c
  }

  predicate IsBlank(question: Option<string>) {
    question.Some? && TrimSpace(question.value) == ""
  }

  /** Throwing the switch. Going off the record carries the turns on disk into memory before they are erased. */
  function SetMemory(c: Chats, id: string, record: bool, now: int, fails: bool, limits: Limits): Chats {
    if id !in c.sessions then c
    else
      var s := c.sessions[id];
      var carried := if !record && s.record then c.(pool := Seeded(c.pool, id, s.stored, now, limits)) else c;
      if fails then carried
      else carried.(sessions := c.sessions[id := s.(record := record, stored := if record then s.stored else [])])
  }

  /** A transcript with one message deleted. */
  function Omitting(msgs: seq<Message>, k: nat): seq<Message>
    requires k < |msgs|
  {
    msgs[..k] + msgs[k + 1..]
  }

  // ---- steps ----

  datatype Step =
    | Create(id: string, title: string)
    | Delete(id: string)
    // A turn begins with the user's question, or without one when it carries tool results on.
    | Begin(turn: int, id: string, question: Option<string>, fails: bool)
    | Say(turn: int, texts: seq<string>, now: int, fails: bool)
    | Look(turn: int, now: int)
    | Finish(turn: int)
    | Switch(id: string, record: bool, now: int, fails: bool)
    | Erase(id: string, message: nat)
    | Forget(id: string)
    | Restart

  function Next(c: Chats, step: Step, limits: Limits): Chats {
    match step
    case Create(id, title) =>
      if id == "" || id in c.sessions || id in c.pool then c
      else c.(sessions := c.sessions[id := Session(Message(title, true), true, [])])
    case Delete(id) => c.(sessions := c.sessions - {id})
    case Begin(turn, id, question, fails) =>
      if id !in c.sessions || turn in c.turns || IsBlank(question) then c
      else Name(c, id, question, fails).(turns := c.turns[turn := Turn(id, RouteFor(c, id))])
    case Say(turn, texts, now, fails) =>
      if turn !in c.turns then c
      else
        var t := c.turns[turn];
        Write(c, t.session, t.route, Tagged(texts, OnRecord(c, t.session)), now, fails, limits)
    case Look(turn, now) =>
      if turn in c.turns && c.turns[turn].route.ToMemory? then c.(pool := Touched(c.pool, c.turns[turn].session, now)) else c
    case Finish(turn) => c.(turns := c.turns - {turn})
    case Switch(id, record, now, fails) => SetMemory(c, id, record, now, fails, limits)
    case Erase(id, k) =>
      if id in c.sessions && k < |c.sessions[id].stored| then
        c.(sessions := c.sessions[id := c.sessions[id].(stored := Omitting(c.sessions[id].stored, k))])
      else c
    case Forget(id) => c.(pool := c.pool - {id})
    case Restart => c.(pool := map[], turns := map[])
  }

  /** A conversation that is gone counts as off the record. */
  predicate OnRecord(c: Chats, id: string) {
    id in c.sessions && c.sessions[id].record
  }

  function Run(c: Chats, steps: seq<Step>, limits: Limits): Chats {
    if steps == [] then c else Next(Run(c, steps[..|steps| - 1], limits), steps[|steps| - 1], limits)
  }

  // ---- what must hold ----

  /** In order, with nothing out of place, but possibly with more in between. */
  predicate IsSubsequence(a: seq<Message>, b: seq<Message>) {
    if a == [] then true
    else if b == [] then false
    else
      || (a[|a| - 1] == b[|b| - 1] && IsSubsequence(a[..|a| - 1], b[..|b| - 1]))
      || IsSubsequence(a, b[..|b| - 1])
  }

  lemma {:induction false} EverySequenceOfItself(a: seq<Message>)
    ensures IsSubsequence(a, a)
  {
    if a != [] {
      EverySequenceOfItself(a[..|a| - 1]);
    }
  }

  lemma {:induction false} LongerMemory(a: seq<Message>, b: seq<Message>, more: seq<Message>)
    requires IsSubsequence(a, b)
    ensures IsSubsequence(a, b + more)
    decreases |more|
  {
    if more == [] {
      assert b + more == b;
    } else {
      LongerMemory(a, b, more[..|more| - 1]);
      assert (b + more)[..|b + more| - 1] == b + more[..|more| - 1];
    }
  }

  lemma {:induction false} BothLonger(a: seq<Message>, b: seq<Message>, more: seq<Message>)
    requires IsSubsequence(a, b)
    ensures IsSubsequence(a + more, b + more)
    decreases |more|
  {
    if more == [] {
      assert a + more == a && b + more == b;
    } else {
      BothLonger(a, b, more[..|more| - 1]);
      assert (a + more)[..|a + more| - 1] == a + more[..|more| - 1];
      assert (b + more)[..|b + more| - 1] == b + more[..|more| - 1];
    }
  }

  /** What is on disk of a conversation held in memory is part of what memory holds, in order. */
  ghost predicate Agree(c: Chats) {
    forall id :: id in c.pool && id in c.sessions ==> IsSubsequence(c.sessions[id].stored, c.pool[id].messages)
  }

  predicate AllOnRecord(msgs: seq<Message>) {
    forall i :: 0 <= i < |msgs| ==> msgs[i].onRecord
  }

  /**
  Nothing said off the record is on disk, neither in a message row nor in a title, and no message
  row is on disk of a conversation that is off the record.
  */
  ghost predicate Private(c: Chats) {
    forall id :: id in c.sessions ==>
      && c.sessions[id].title.onRecord
      && AllOnRecord(c.sessions[id].stored) && (!c.sessions[id].record ==> c.sessions[id].stored == [])
  }

  /** Whether a write to this route keeps memory whole. Everything here can be looked up before writing. */
  predicate WriteAgrees(c: Chats, id: string, route: Route, msgs: seq<Message>, now: int, fails: bool, limits: Limits)
    requires id in c.sessions
  {
    var stored := c.sessions[id].stored;
    match route
    case ToStore => fails || id !in c.pool || IsSubsequence(stored + msgs, c.pool[id].messages)
    case ToMemory(persist) =>
      || id in c.pool || stored == [] || !Survives(c.pool, id, now, limits)
      || ((!persist || fails) && IsSubsequence(stored, msgs))
  }

  /** Whether a write to this route stays off the disk when it should. */
  predicate WriteIsPrivate(c: Chats, id: string, route: Route, fails: bool)
    requires id in c.sessions
  {
    fails || (route.ToMemory? && !route.persist) || c.sessions[id].record
  }

  /** The step is a turn that has something to say to a conversation that is there. */
  predicate Writes(c: Chats, step: Step) {
    step.Say? && step.turn in c.turns && c.turns[step.turn].session in c.sessions && step.texts != []
  }

  predicate WriteKeeps(c: Chats, step: Step, limits: Limits)
    requires Writes(c, step)
  {
    var t := c.turns[step.turn];
    && WriteAgrees(c, t.session, t.route, Tagged(step.texts, OnRecord(c, t.session)), step.now, step.fails, limits)
    && WriteIsPrivate(c, t.session, t.route, step.fails)
  }

  /** The step puts the question that names its conversation. */
  predicate Names(c: Chats, step: Step) {
    && step.Begin? && step.turn !in c.turns && step.question.Some? && !IsBlank(step.question) && !step.fails
    && step.id in c.sessions && c.sessions[step.id].title.text == ""
  }

  /** What can be looked up before any step: a write keeps both promises, and a naming is done on the record. */
  predicate Keeps(c: Chats, step: Step, limits: Limits) {
    (Writes(c, step) ==> WriteKeeps(c, step, limits)) && (Names(c, step) ==> c.sessions[step.id].record)
  }

  /** A route chosen now keeps both promises, whatever is written to it. */
  lemma FreshRouteKeeps(c: Chats, id: string, msgs: seq<Message>, now: int, fails: bool, limits: Limits)
    requires Private(c) && id in c.sessions
    ensures WriteAgrees(c, id, RouteFor(c, id), msgs, now, fails, limits) && WriteIsPrivate(c, id, RouteFor(c, id), fails)
  {
  }

  // ---- one step ----

  lemma EvictionOnlyRemoves(pool: Pool, now: int, limits: Limits)
    ensures forall id :: id in Evicted(pool, now, limits) ==> id in pool && Evicted(pool, now, limits)[id] == pool[id]
  {
  }

  lemma RememberAgrees(c: Chats, id: string, msgs: seq<Message>, now: int, limits: Limits)
    requires Agree(c)
    requires id in c.sessions ==> id in c.pool || c.sessions[id].stored == []
    ensures var d := Remember(c, id, msgs, now, limits);
            && Agree(d)
            && (id in d.pool ==> id in c.sessions ==> IsSubsequence(c.sessions[id].stored + msgs, d.pool[id].messages))
  {
    if msgs != [] {
      var before := if id in c.pool then c.pool[id].messages else [];
      EvictionOnlyRemoves(c.pool[id := Held(before + msgs, now)], now, limits);
      if id in c.sessions {
        LongerMemory(c.sessions[id].stored, before, msgs);
        BothLonger(c.sessions[id].stored, before, msgs);
      }
    } else if id in c.sessions {
      assert c.sessions[id].stored + msgs == c.sessions[id].stored;
    }
  }

  lemma {:induction false} SubsequenceIsNoLonger(a: seq<Message>, b: seq<Message>)
    requires IsSubsequence(a, b)
    ensures |a| <= |b|
    decreases |b|
  {
    if a != [] {
      if a[|a| - 1] == b[|b| - 1] && IsSubsequence(a[..|a| - 1], b[..|b| - 1]) {
        SubsequenceIsNoLonger(a[..|a| - 1], b[..|b| - 1]);
      } else {
        SubsequenceIsNoLonger(a, b[..|b| - 1]);
      }
    }
  }

  lemma {:induction false} DeletionStaysSubsequence(a: seq<Message>, b: seq<Message>, k: nat)
    requires k < |a| && IsSubsequence(a, b)
    ensures IsSubsequence(Omitting(a, k), b)
    decreases |b|
  {
    var m, n := |a| - 1, |b| - 1;
    if a[m] == b[n] && IsSubsequence(a[..m], b[..n]) {
      if k == m {
        assert Omitting(a, k) == a[..m];
      } else {
        DeletionStaysSubsequence(a[..m], b[..n], k);
        assert Omitting(a, k)[..m - 1] == Omitting(a[..m], k);
      }
    } else {
      DeletionStaysSubsequence(a, b[..n], k);
    }
  }

  lemma StoreWriteAgrees(c: Chats, id: string, msgs: seq<Message>, now: int, fails: bool, limits: Limits)
    requires Agree(c) && id in c.sessions
    ensures Agree(Write(c, id, ToStore, msgs, now, fails, limits)) <==> WriteAgrees(c, id, ToStore, msgs, now, fails, limits)
  {
    var d := Write(c, id, ToStore, msgs, now, fails, limits);
    if !fails {
      assert d.sessions[id].stored == c.sessions[id].stored + msgs && d.pool == c.pool;
    }
  }

  /** What a write to memory leaves of the conversation, and of the others. */
  lemma MemoryWriteShape(c: Chats, id: string, persist: bool, msgs: seq<Message>, now: int, fails: bool, limits: Limits)
    requires id in c.sessions && msgs != []
    ensures var d := Write(c, id, ToMemory(persist), msgs, now, fails, limits);
            var before := if id in c.pool then c.pool[id].messages else [];
            && (id in d.pool <==> Survives(c.pool, id, now, limits))
            && (id in d.pool ==> d.pool[id].messages == before + msgs)
            && (forall other :: other != id && other in d.pool ==> other in c.pool && d.pool[other] == c.pool[other])
            && d.sessions == if persist && !fails then c.sessions[id := c.sessions[id].(stored := c.sessions[id].stored + msgs)] else c.sessions
  {
    var before := if id in c.pool then c.pool[id].messages else [];
    WrittenSurvives(c.pool, id, before + msgs, now, limits);
    EvictionOnlyRemoves(c.pool[id := Held(before + msgs, now)], now, limits);
  }

  lemma HeldMemoryAgrees(c: Chats, d: Chats, id: string, msgs: seq<Message>)
    requires Agree(c) && id in c.sessions && id in d.sessions && (id in c.pool || c.sessions[id].stored == [])
    requires forall other :: other != id && other in d.sessions ==> other in c.sessions && d.sessions[other] == c.sessions[other]
    requires forall other :: other != id && other in d.pool ==> other in c.pool && d.pool[other] == c.pool[other]
    requires id in d.pool ==> d.pool[id].messages == (if id in c.pool then c.pool[id].messages else []) + msgs
    requires d.sessions[id].stored == c.sessions[id].stored || d.sessions[id].stored == c.sessions[id].stored + msgs
    ensures Agree(d)
  {
    var before := if id in c.pool then c.pool[id].messages else [];
    LongerMemory(c.sessions[id].stored, before, msgs);
    BothLonger(c.sessions[id].stored, before, msgs);
    OthersAgree(c, d, id);
  }

  lemma MoreThanWasSaid(stored: seq<Message>, msgs: seq<Message>)
    requires stored != []
    ensures !IsSubsequence(stored + msgs, msgs)
  {
    if IsSubsequence(stored + msgs, msgs) {
      SubsequenceIsNoLonger(stored + msgs, msgs);
    }
  }

  lemma MemoryWriteAgrees(c: Chats, id: string, persist: bool, msgs: seq<Message>, now: int, fails: bool, limits: Limits)
    requires Agree(c) && id in c.sessions && msgs != []
    ensures Agree(Write(c, id, ToMemory(persist), msgs, now, fails, limits))
       <==> WriteAgrees(c, id, ToMemory(persist), msgs, now, fails, limits)
  {
    var d := Write(c, id, ToMemory(persist), msgs, now, fails, limits);
    var stored := c.sessions[id].stored;
    MemoryWriteShape(c, id, persist, msgs, now, fails, limits);
    if id in c.pool || stored == [] {
      HeldMemoryAgrees(c, d, id, msgs);
    } else {
      assert [] + msgs == msgs;
      OthersAgree(c, d, id);
      MoreThanWasSaid(stored, msgs);
    }
  }

  /** Only the conversation written to can come apart. */
  lemma OthersAgree(c: Chats, d: Chats, id: string)
    requires Agree(c) && id in c.sessions && id in d.sessions
    requires forall other :: other != id && other in d.sessions ==> other in c.sessions && d.sessions[other] == c.sessions[other]
    requires forall other :: other != id && other in d.pool ==> other in c.pool && d.pool[other] == c.pool[other]
    ensures Agree(d) <==> (id in d.pool ==> IsSubsequence(d.sessions[id].stored, d.pool[id].messages))
  {
  }

  /**
  Exactly which writes keep what is on disk an ordered part of what memory holds, on every route
  and whether or not the store takes the write.
  */
  lemma WhenWritingAgrees(c: Chats, id: string, route: Route, msgs: seq<Message>, now: int, fails: bool, limits: Limits)
    requires Agree(c) && id in c.sessions && msgs != []
    ensures Agree(Write(c, id, route, msgs, now, fails, limits)) <==> WriteAgrees(c, id, route, msgs, now, fails, limits)
  {
    match route
    case ToStore => StoreWriteAgrees(c, id, msgs, now, fails, limits);
    case ToMemory(persist) => MemoryWriteAgrees(c, id, persist, msgs, now, fails, limits);
  }

  lemma SwitchAgrees(c: Chats, id: string, record: bool, now: int, fails: bool, limits: Limits)
    requires Agree(c)
    ensures Agree(SetMemory(c, id, record, now, fails, limits))
  {
    if id in c.sessions {
      var s := c.sessions[id];
      EvictionOnlyRemoves(c.pool[id := Held(s.stored, now)], now, limits);
      EverySequenceOfItself(s.stored);
    }
  }

  lemma EraseAgrees(c: Chats, id: string, k: nat, limits: Limits)
    requires Agree(c)
    ensures Agree(Next(c, Erase(id, k), limits))
  {
    if id in c.sessions && k < |c.sessions[id].stored| && id in c.pool {
      DeletionStaysSubsequence(c.sessions[id].stored, c.pool[id].messages, k);
    }
  }

  lemma SilenceChangesNothing(c: Chats, step: Step, limits: Limits)
    requires step.Say? && !Writes(c, step) && (step.turn in c.turns ==> c.turns[step.turn].session in c.sessions)
    ensures Next(c, step, limits) == c
  {
    if step.turn in c.turns {
      var t := c.turns[step.turn];
      var s := c.sessions[t.session];
      assert Tagged([], s.record) == [] && s.stored + [] == s.stored;
      assert c.sessions[t.session := s] == c.sessions;
    }
  }

  /** A turn whose conversation was deleted still writes to memory, and can push others out of it. */
  lemma WriteToTheDeleted(c: Chats, step: Step, limits: Limits)
    requires step.Say? && step.turn in c.turns && c.turns[step.turn].session !in c.sessions
    ensures var d, id := Next(c, step, limits), c.turns[step.turn].session;
            && d.sessions == c.sessions && d.turns == c.turns
            && forall other :: other in d.pool && other != id ==> other in c.pool && d.pool[other] == c.pool[other]
  {
    var t := c.turns[step.turn];
    var msgs := Tagged(step.texts, OnRecord(c, t.session));
    EvictionOnlyRemoves(c.pool[t.session := Held((if t.session in c.pool then c.pool[t.session].messages else []) + msgs, step.now)],
                        step.now, limits);
  }

  lemma OtherSaysChangeNoRow(c: Chats, step: Step, limits: Limits)
    requires step.Say? && !Writes(c, step)
    ensures Next(c, step, limits).sessions == c.sessions
    ensures Agree(c) ==> Agree(Next(c, step, limits))
  {
    if step.turn in c.turns && c.turns[step.turn].session !in c.sessions {
      WriteToTheDeleted(c, step, limits);
    } else {
      SilenceChangesNothing(c, step, limits);
    }
  }

  /** Nothing but a turn's write can bring memory and store apart. */
  lemma OthersKeepAgreement(c: Chats, step: Step, limits: Limits)
    requires Agree(c) && !Writes(c, step)
    ensures Agree(Next(c, step, limits))
  {
    match step
    case Say(_, _, _, _) => OtherSaysChangeNoRow(c, step, limits);
    case Switch(id, record, now, fails) => SwitchAgrees(c, id, record, now, fails, limits);
    case Erase(id, k) => EraseAgrees(c, id, k, limits);
    case _ =>
  }

  /** Naming is the one other step that puts something said on disk. */
  lemma OthersStayPrivate(c: Chats, step: Step, limits: Limits)
    requires Private(c) && !Writes(c, step)
    ensures Private(Next(c, step, limits)) <==> (Names(c, step) ==> c.sessions[step.id].record)
  {
    if step.Say? {
      OtherSaysChangeNoRow(c, step, limits);
    } else if Names(c, step) {
      assert Next(c, step, limits).sessions[step.id].title.onRecord == c.sessions[step.id].record;
    }
  }

  /**
  Exactly when a question said off the record ends up on disk as the title: when it is the first
  one put to a conversation that has no title and is off the record.
  */
  lemma WhenTheTitleTells(c: Chats, step: Step, limits: Limits)
    requires step.Begin? && step.id in c.sessions && c.sessions[step.id].title.onRecord
    ensures var after := Next(c, step, limits).sessions[step.id].title;
            && (!after.onRecord <==> Names(c, step) && !c.sessions[step.id].record)
            && (!after.onRecord ==> after == Message(TitleOf(step.question.value), false))
  {
  }

  /** The switch erases message rows and leaves the title, in whichever state it was given. */
  lemma TitleSurvivesTheSwitch(c: Chats, id: string, record: bool, now: int, fails: bool, limits: Limits)
    requires id in c.sessions
    ensures var d := SetMemory(c, id, record, now, fails, limits);
            && id in d.sessions && d.sessions[id].title == c.sessions[id].title
            && (!record && !fails ==> d.sessions[id].stored == [])
  {
  }

  /**
  Exactly when a turn's write keeps the promise: unless it has something to say, its route
  persists, the store takes it, and the conversation has gone off the record meanwhile.
  */
  lemma WhenSayingStaysPrivate(c: Chats, step: Step, limits: Limits)
    requires Private(c) && Writes(c, step)
    ensures var t := c.turns[step.turn];
            Private(Next(c, step, limits)) <==> WriteIsPrivate(c, t.session, t.route, step.fails)
  {
    var t := c.turns[step.turn];
    var s := c.sessions[t.session];
    var after := Next(c, step, limits);
    var msgs := Tagged(step.texts, s.record);
    if !step.fails && (t.route.ToMemory? ==> t.route.persist) && !s.record {
      assert after.sessions[t.session].stored == s.stored + msgs;
      assert msgs[0] == Message(step.texts[0], false);
    }
  }

  // ---- whole runs ----

  /** Both promises hold after every step. */
  ghost predicate KeptThroughout(c: Chats, steps: seq<Step>, limits: Limits) {
    steps != [] ==>
      && KeptThroughout(c, steps[..|steps| - 1], limits)
      && Agree(Run(c, steps, limits)) && Private(Run(c, steps, limits))
  }

  ghost predicate EveryStepKeeps(c: Chats, steps: seq<Step>, limits: Limits) {
    steps != [] ==>
      && EveryStepKeeps(c, steps[..|steps| - 1], limits)
      && Keeps(Run(c, steps[..|steps| - 1], limits), steps[|steps| - 1], limits)
  }

  lemma StepKeepsWhen(c: Chats, step: Step, limits: Limits)
    requires Agree(c) && Private(c)
    ensures Agree(Next(c, step, limits)) && Private(Next(c, step, limits)) <==> Keeps(c, step, limits)
  {
    if Writes(c, step) {
      var t := c.turns[step.turn];
      var msgs := Tagged(step.texts, OnRecord(c, t.session));
      assert |msgs| > 0;
      WhenWritingAgrees(c, t.session, t.route, msgs, step.now, step.fails, limits);
      WhenSayingStaysPrivate(c, step, limits);
    } else {
      OthersKeepAgreement(c, step, limits);
      OthersStayPrivate(c, step, limits);
    }
  }

  /**
  However turns, switches, evictions, failed store writes, deletions and restarts interleave:
  at every moment a conversation held in memory has what is on disk as an ordered part of what
  memory holds, nothing said off the record is on disk in a message row or a title, and of a
  conversation off the record no message row is on disk, if and only if every write and every
  naming, when it was made, met the conditions that can be looked up beforehand.
  */
  lemma {:induction false} WhenMemoryAndStoreAgree(c: Chats, steps: seq<Step>, limits: Limits)
    requires c.sessions == map[]
    ensures KeptThroughout(c, steps, limits) <==> EveryStepKeeps(c, steps, limits)
    ensures KeptThroughout(c, steps, limits) ==> Agree(Run(c, steps, limits)) && Private(Run(c, steps, limits))
  {
    if steps != [] {
      var rest := steps[..|steps| - 1];
      WhenMemoryAndStoreAgree(c, rest, limits);
      if KeptThroughout(c, rest, limits) {
        StepKeepsWhen(Run(c, rest, limits), steps[|steps| - 1], limits);
      }
    }
  }

  // ---- runs that break a promise ----

  const Nothing := Chats(map[], map[], map[])

  lemma RunSnoc(c: Chats, steps: seq<Step>, step: Step, limits: Limits)
    ensures Run(c, steps + [step], limits) == Next(Run(c, steps, limits), step, limits)
  {
    assert (steps + [step])[..|steps|] == steps;
  }

  lemma RunTwo(c: Chats, s1: Step, s2: Step, limits: Limits)
    ensures Run(c, [s1, s2], limits) == Next(Next(c, s1, limits), s2, limits)
  {
    assert [s1, s2] == [] + [s1] + [s2];
    RunSnoc(c, [], s1, limits);
    RunSnoc(c, [] + [s1], s2, limits);
  }

  lemma RunThree(c: Chats, s1: Step, s2: Step, s3: Step, limits: Limits)
    ensures Run(c, [s1, s2, s3], limits) == Next(Next(Next(c, s1, limits), s2, limits), s3, limits)
  {
    RunTwo(c, s1, s2, limits);
    RunSnoc(c, [s1, s2], s3, limits);
    assert [s1, s2] + [s3] == [s1, s2, s3];
  }

  lemma RunFour(c: Chats, s1: Step, s2: Step, s3: Step, s4: Step, limits: Limits)
    ensures Run(c, [s1, s2, s3, s4], limits) == Next(Next(Next(Next(c, s1, limits), s2, limits), s3, limits), s4, limits)
  {
    RunThree(c, s1, s2, s3, limits);
    RunSnoc(c, [s1, s2, s3], s4, limits);
    assert [s1, s2, s3] + [s4] == [s1, s2, s3, s4];
  }

  /** One conversation, and whatever the pool holds. */
  function Solo(id: string, s: Session, pool: Pool, turns: map<int, Turn>): Chats {
    Chats(pool, map[id := s], turns)
  }

  lemma CreatedAlone(id: string, limits: Limits)
    requires id != ""
    ensures Next(Nothing, Create(id, ""), limits) == Solo(id, Untitled(true, []), map[], map[])
  {
  }

  lemma BegunAlone(id: string, s: Session, pool: Pool, limits: Limits)
    ensures Next(Solo(id, s, pool, map[]), Begin(1, id, None, false), limits)
         == Solo(id, s, pool, map[1 := Turn(id, RouteFor(Solo(id, s, pool, map[]), id))])
  {
  }

  lemma SwitchedOnAlone(id: string, s: Session, pool: Pool, turns: map<int, Turn>, limits: Limits)
    requires !s.record
    ensures Next(Solo(id, s, pool, turns), Switch(id, true, 0, false), limits) == Solo(id, s.(record := true), pool, turns)
  {
  }

  lemma SeededAlone(pool: Pool, id: string, msgs: seq<Message>, now: int, limits: Limits)
    requires limits.maxSessions > 0 && limits.ttl >= 0
    requires forall other :: other in pool ==> other == id || now - pool[other].lastUsed > limits.ttl
    ensures Seeded(pool, id, msgs, now, limits) == map[id := Held(msgs, now)]
  {
    assert Ahead(pool, id, now, limits.ttl) == {};
    WrittenSurvives(pool, id, msgs, now, limits);
    EvictionOnlyRemoves(pool[id := Held(msgs, now)], now, limits);
  }

  lemma SwitchedOffAlone(id: string, s: Session, turns: map<int, Turn>, limits: Limits)
    requires limits.maxSessions > 0 && limits.ttl >= 0 && s.record
    ensures Next(Solo(id, s, map[], turns), Switch(id, false, 0, false), limits)
         == Solo(id, s.(record := false, stored := []), map[id := Held(s.stored, 0)], turns)
  {
    SeededAlone(map[], id, s.stored, 0, limits);
  }

  lemma MemoryNeverLearns(c: Chats, id: string, msgs: seq<Message>, now: int, limits: Limits)
    requires Agree(c) && id in c.sessions && id in c.pool && c.pool[id].messages == [] && msgs != []
    ensures !Agree(Write(c, id, ToStore, msgs, now, false, limits))
  {
    WhenWritingAgrees(c, id, ToStore, msgs, now, false, limits);
  }

  lemma MemoryStartsOver(c: Chats, id: string, msgs: seq<Message>, now: int, limits: Limits)
    requires Agree(c) && id in c.sessions && id !in c.pool && c.sessions[id].stored != [] && msgs != []
    requires Survives(c.pool, id, now, limits)
    ensures !Agree(Write(c, id, ToMemory(true), msgs, now, false, limits))
  {
    WhenWritingAgrees(c, id, ToMemory(true), msgs, now, false, limits);
  }

  /**
  The route is chosen once a turn. A turn that began on the record and is still answering when
  the switch is thrown goes on writing to the store.
  */
  lemma TurnInFlightReachesTheStore(id: string, text: string, limits: Limits)
    requires limits.maxSessions > 0 && limits.ttl >= 0 && id != ""
    ensures var before := Run(Nothing, [Create(id, ""), Begin(1, id, None, false), Switch(id, false, 0, false)], limits);
            && Private(before)
            && Next(before, Say(1, [text], 0, false), limits).sessions == map[id := Untitled(false, [Message(text, false)])]
  {
    var s1, s2, s3 := Create(id, ""), Begin(1, id, None, false), Switch(id, false, 0, false);
    RunThree(Nothing, s1, s2, s3, limits);
    CreatedAlone(id, limits);
    BegunAlone(id, Untitled(true, []), map[], limits);
    SwitchedOffAlone(id, Untitled(true, []), map[1 := Turn(id, ToStore)], limits);
    SaidToTheStore(id, text, limits);
  }

  lemma SaidToTheStore(id: string, text: string, limits: Limits)
    ensures var before := Solo(id, Untitled(false, []), map[id := Held([], 0)], map[1 := Turn(id, ToStore)]);
            Next(before, Say(1, [text], 0, false), limits).sessions == map[id := Untitled(false, [Message(text, false)])]
  {
    assert [] + Tagged([text], false) == [Message(text, false)];
  }

  /**
  Off the record from the start, with every write where it should go: the first question is on
  disk all the same, as the title.
  */
  lemma TitleTellsTheFirstQuestion(id: string, text: string, limits: Limits)
    requires limits.maxSessions > 0 && limits.ttl >= 0 && id != "" && TrimSpace(text) != ""
    ensures var before := Run(Nothing, [Create(id, ""), Switch(id, false, 0, false)], limits);
            var asked := Next(before, Begin(1, id, Some(text), false), limits);
            && Agree(before) && Private(before)
            && Writes(asked, Say(1, [text], 0, false)) && WriteKeeps(asked, Say(1, [text], 0, false), limits)
            && Next(asked, Say(1, [text], 0, false), limits).sessions == map[id := Session(Message(TitleOf(text), false), false, [])]
  {
    RunTwo(Nothing, Create(id, ""), Switch(id, false, 0, false), limits);
    CreatedAlone(id, limits);
    SwitchedOffAlone(id, Untitled(true, []), map[], limits);
    AskedOffTheRecord(id, text, limits);
  }

  lemma NamedAlone(id: string, text: string, limits: Limits)
    requires TrimSpace(text) != ""
    ensures Next(Solo(id, Untitled(false, []), map[id := Held([], 0)], map[]), Begin(1, id, Some(text), false), limits)
         == Solo(id, Session(Message(TitleOf(text), false), false, []), map[id := Held([], 0)], map[1 := Turn(id, ToMemory(false))])
  {
    var before := Solo(id, Untitled(false, []), map[id := Held([], 0)], map[]);
    TitledAlone(before, id, text);
    assert RouteFor(before, id) == ToMemory(false);
  }

  lemma TitledAlone(c: Chats, id: string, text: string)
    requires c == Solo(id, Untitled(false, []), c.pool, c.turns)
    ensures Name(c, id, Some(text), false) == Solo(id, Session(Message(TitleOf(text), false), false, []), c.pool, c.turns)
  {
  }

  lemma SaidToMemory(id: string, title: Message, text: string, limits: Limits)
    ensures var asked := Solo(id, Session(title, false, []), map[id := Held([], 0)], map[1 := Turn(id, ToMemory(false))]);
            && Writes(asked, Say(1, [text], 0, false)) && WriteKeeps(asked, Say(1, [text], 0, false), limits)
            && Next(asked, Say(1, [text], 0, false), limits).sessions == asked.sessions
  {
  }

  lemma AskedOffTheRecord(id: string, text: string, limits: Limits)
    requires TrimSpace(text) != ""
    ensures var before := Solo(id, Untitled(false, []), map[id := Held([], 0)], map[]);
            var asked := Next(before, Begin(1, id, Some(text), false), limits);
            && Writes(asked, Say(1, [text], 0, false)) && WriteKeeps(asked, Say(1, [text], 0, false), limits)
            && Next(asked, Say(1, [text], 0, false), limits).sessions == map[id := Session(Message(TitleOf(text), false), false, [])]
  {
    NamedAlone(id, text, limits);
    SaidToMemory(id, Message(TitleOf(text), false), text, limits);
  }

  /**
  Off the record and back on while a turn is being answered: the turn goes on writing to the
  store alone, and memory, which later turns read, never learns what it said.
  */
  lemma OffAndOnComesApart(id: string, text: string, limits: Limits)
    requires limits.maxSessions > 0 && limits.ttl >= 0 && id != ""
    ensures var before := Run(Nothing, [Create(id, ""), Begin(1, id, None, false), Switch(id, false, 0, false), Switch(id, true, 0, false)], limits);
            && before.sessions == map[id := Untitled(true, [])]
            && Agree(before) && Private(before) && !Agree(Next(before, Say(1, [text], 0, false), limits))
  {
    RunFour(Nothing, Create(id, ""), Begin(1, id, None, false), Switch(id, false, 0, false), Switch(id, true, 0, false), limits);
    CreatedAlone(id, limits);
    BegunAlone(id, Untitled(true, []), map[], limits);
    SwitchedOffAlone(id, Untitled(true, []), map[1 := Turn(id, ToStore)], limits);
    SwitchedOnAlone(id, Untitled(false, []), map[id := Held([], 0)], map[1 := Turn(id, ToStore)], limits);
    OvertakenComesApart(id, text, limits);
  }

  lemma OvertakenComesApart(id: string, text: string, limits: Limits)
    ensures var before := Solo(id, Untitled(true, []), map[id := Held([], 0)], map[1 := Turn(id, ToStore)]);
            Agree(before) && Private(before) && !Agree(Next(before, Say(1, [text], 0, false), limits))
  {
    var before := Solo(id, Untitled(true, []), map[id := Held([], 0)], map[1 := Turn(id, ToStore)]);
    MemoryNeverLearns(before, id, Tagged([text], true), 0, limits);
    SayIsAWrite(before, id, ToStore, text, 0, limits);
  }

  // ---- eviction in the middle of a turn ----

  /** Back on the record, with a turn begun that writes to both places. */
  lemma BackOnRecord(id: string, limits: Limits)
    requires limits.maxSessions > 0 && limits.ttl >= 0 && id != ""
    ensures Run(Nothing, [Create(id, ""), Switch(id, false, 0, false), Switch(id, true, 0, false), Begin(1, id, None, false)], limits)
         == Solo(id, Untitled(true, []), map[id := Held([], 0)], map[1 := Turn(id, ToMemory(true))])
  {
    RunFour(Nothing, Create(id, ""), Switch(id, false, 0, false), Switch(id, true, 0, false), Begin(1, id, None, false), limits);
    CreatedAlone(id, limits);
    SwitchedOffAlone(id, Untitled(true, []), map[], limits);
    SwitchedOnAlone(id, Untitled(false, []), map[id := Held([], 0)], map[], limits);
    BegunAlone(id, Untitled(true, []), map[id := Held([], 0)], limits);
  }

  lemma AppendedAlone(id: string, msgs: seq<Message>, limits: Limits)
    requires limits.maxSessions > 0 && limits.ttl >= 0 && msgs != []
    ensures Appended(map[id := Held([], 0)], id, msgs, 0, limits) == map[id := Held(msgs, 0)]
  {
    var pool: Pool := map[id := Held([], 0)];
    assert Ahead(pool, id, 0, limits.ttl) == {};
    assert [] + msgs == msgs;
    WrittenSurvives(pool, id, msgs, 0, limits);
    EvictionOnlyRemoves(pool[id := Held(msgs, 0)], 0, limits);
  }

  lemma SaidToBoth(id: string, text: string, limits: Limits)
    requires limits.maxSessions > 0 && limits.ttl >= 0
    ensures Next(Solo(id, Untitled(true, []), map[id := Held([], 0)], map[1 := Turn(id, ToMemory(true))]), Say(1, [text], 0, false), limits)
         == Solo(id, Untitled(true, Tagged([text], true)), map[id := Held(Tagged([text], true), 0)], map[1 := Turn(id, ToMemory(true))])
  {
    AppendedAlone(id, Tagged([text], true), limits);
    assert [] + Tagged([text], true) == Tagged([text], true);
  }

  /** Two conversations, the second just gone off the record and alone in the pool. */
  function Displaced(id: string, said: seq<Message>, other: string, late: int): Chats {
    Chats(map[other := Held([], late)], map[id := Untitled(true, said), other := Untitled(false, [])], map[1 := Turn(id, ToMemory(true))])
  }

  lemma AnotherTakesOver(id: string, said: seq<Message>, other: string, limits: Limits)
    requires limits.maxSessions > 0 && limits.ttl >= 0 && id != other && other != ""
    ensures var held := Solo(id, Untitled(true, said), map[id := Held(said, 0)], map[1 := Turn(id, ToMemory(true))]);
            Next(Next(held, Create(other, ""), limits), Switch(other, false, limits.ttl + 1, false), limits)
            == Displaced(id, said, other, limits.ttl + 1)
  {
    var held := Solo(id, Untitled(true, said), map[id := Held(said, 0)], map[1 := Turn(id, ToMemory(true))]);
    var created := held.(sessions := map[id := Untitled(true, said), other := Untitled(true, [])]);
    assert Next(held, Create(other, ""), limits) == created;
    SeededAlone(created.pool, other, [], limits.ttl + 1, limits);
  }

  lemma SayIsAWrite(c: Chats, id: string, route: Route, text: string, now: int, limits: Limits)
    requires 1 in c.turns && c.turns[1] == Turn(id, route) && OnRecord(c, id)
    ensures Next(c, Say(1, [text], now, false), limits) == Write(c, id, route, Tagged([text], true), now, false, limits)
  {
  }

  lemma DisplacedKeeps(c: Chats, id: string, said: seq<Message>, other: string, late: int, limits: Limits)
    requires c == Displaced(id, said, other, late) && id != other && AllOnRecord(said)
    requires limits.maxSessions > 0 && limits.ttl >= 0 && !Less(id, other)
    ensures Agree(c) && Private(c) && OnRecord(c, id) && id !in c.pool && Survives(c.pool, id, late, limits)
  {
    assert Ahead(c.pool, id, late, limits.ttl) == {};
  }

  lemma StartsOver(c: Chats, id: string, said: seq<Message>, other: string, text: string, late: int, limits: Limits)
    requires c == Displaced(id, said, other, late) && id != other && AllOnRecord(said) && said != []
    requires limits.maxSessions > 0 && limits.ttl >= 0 && !Less(id, other)
    ensures Agree(c) && Private(c) && !Agree(Next(c, Say(1, [text], late, false), limits))
  {
    DisplacedKeeps(c, id, said, other, late, limits);
    MemoryStartsOver(c, id, Tagged([text], true), late, limits);
    SayIsAWrite(c, id, ToMemory(true), text, late, limits);
  }

  /**
  Eviction while a turn is being answered: another conversation's write pushes this one out, and
  its next write starts memory again from nothing, with the rest on disk.
  */
  lemma EvictionComesApart(id: string, other: string, one: string, two: string, limits: Limits)
    requires limits.maxSessions > 0 && limits.ttl >= 0 && id != "" && other != "" && id != other && !Less(id, other)
    ensures var late := limits.ttl + 1;
            var begun := Run(Nothing, [Create(id, ""), Switch(id, false, 0, false), Switch(id, true, 0, false), Begin(1, id, None, false)], limits);
            var before := Run(begun, [Say(1, [one], 0, false), Create(other, ""), Switch(other, false, late, false)], limits);
            && Agree(before) && Private(before) && !Agree(Next(before, Say(1, [two], late, false), limits))
  {
    var late := limits.ttl + 1;
    var begun := Solo(id, Untitled(true, []), map[id := Held([], 0)], map[1 := Turn(id, ToMemory(true))]);
    BackOnRecord(id, limits);
    RunThree(begun, Say(1, [one], 0, false), Create(other, ""), Switch(other, false, late, false), limits);
    SaidToBoth(id, one, limits);
    AnotherTakesOver(id, Tagged([one], true), other, limits);
    StartsOver(Displaced(id, Tagged([one], true), other, late), id, Tagged([one], true), other, two, late, limits);
  }

  /** Going off the record a second time starts memory again from disk: what was said off the record before is forgotten. */
  lemma SecondSwitchForgets(c: Chats, id: string, now: int, limits: Limits)
    requires id in c.sessions && c.sessions[id].record
    ensures var after := SetMemory(c, id, false, now, false, limits);
            && after.sessions[id].stored == []
            && (id in after.pool ==> after.pool[id].messages == c.sessions[id].stored)
  {
    EvictionOnlyRemoves(c.pool[id := Held(c.sessions[id].stored, now)], now, limits);
  }

  // ---- the agent ----

  /** The conversations and the pool, changed in place. */
  class Agent {
    const ephemeral: Ephemeral
    var sessions: map<string, Session>

    ghost predicate Valid()
      reads this, ephemeral
    {
      ephemeral.Valid() && "" !in sessions && "" !in ephemeral.sessions
    }

    /** The agent's state as a value; turns are kept by their callers. */
    ghost function View(turns: map<int, Turn>): Chats
      reads this, ephemeral
    {
      Chats(ephemeral.sessions, sessions, turns)
    }

    constructor ()
      ensures Valid() && fresh(ephemeral)
      ensures sessions == map[] && ephemeral.sessions == map[]
      ensures ephemeral.Bounds() == Limits(64, 12 * 3600)
    {
      ephemeral := new Ephemeral(0, 0);
      sessions := map[];
    }

    method TranscriptFor(id: string) returns (route: Route)
      requires Valid() && id in sessions
      ensures route == RouteFor(View(map[]), id)
    {
      var held := id in ephemeral.sessions;
      if !sessions[id].record || held {
        return ToMemory(sessions[id].record);
      }
      return ToStore;
    }

    /** `handlePostMessage`: names the conversation if it has no title, then picks where the turn reads and writes. */
    method PostMessage(id: string, text: string, fails: bool) returns (route: Option<Route>)
      requires Valid() && id in sessions
      modifies this`sessions
      ensures Valid()
      ensures route.None? <==> IsBlank(Some(text))
      ensures forall turns, turn: int :: turn !in turns ==>
        View(if route.Some? then turns[turn := Turn(id, route.value)] else turns)
        == Next(old(View(turns)), Begin(turn, id, Some(text), fails), ephemeral.Bounds())
    {
      if TrimSpace(text) == "" {
        return None;
      }
      if sessions[id].title.text == "" && !fails {
        sessions := sessions[id := sessions[id].(title := Message(TitleOf(text), sessions[id].record))];
      }
      var chosen := TranscriptFor(id);
      return Some(chosen);
    }

    /** `Store.AppendMessages`; `fails` stands for a database that refuses. */
    method AppendToStore(id: string, msgs: seq<Message>, fails: bool) returns (ok: bool)
      requires Valid()
      modifies this`sessions
      ensures Valid()
      ensures forall turns :: View(turns) == Store(old(View(turns)), id, msgs, fails)
      ensures ok <==> msgs == [] || (!fails && id in old(sessions))
    {
      if msgs == [] {
        if !fails && id in sessions {
          assert sessions[id].stored + msgs == sessions[id].stored;
        }
        return true;
      }
      if fails || id !in sessions {
        return false;
      }
      sessions := sessions[id := sessions[id].(stored := sessions[id].stored + msgs)];
      return true;
    }

    /** `Append` on the transcript a turn was given: memory first, then the store when it persists. */
    method Append(id: string, route: Route, msgs: seq<Message>, now: int, fails: bool) returns (ok: bool)
      requires Valid() && id != ""
      modifies this`sessions, ephemeral
      ensures Valid()
      ensures forall turns :: View(turns) == Write(old(View(turns)), id, route, msgs, now, fails, ephemeral.Bounds())
    {
      ok := true;
      if route.ToMemory? {
        ephemeral.Append(id, msgs, now);
        if !route.persist {
          return;
        }
      }
      ok := AppendToStore(id, msgs, fails);
    }

    /** `Store.DeleteMessage`: one message goes from the disk, and memory keeps what it holds. */
    method DeleteMessage(id: string, k: nat) returns (ok: bool)
      requires Valid()
      modifies this`sessions
      ensures Valid()
      ensures forall turns :: View(turns) == Next(old(View(turns)), Erase(id, k), ephemeral.Bounds())
      ensures ok <==> id in old(sessions) && k < |old(sessions)[id].stored|
    {
      if id !in sessions || k >= |sessions[id].stored| {
        return false;
      }
      sessions := sessions[id := sessions[id].(stored := Omitting(sessions[id].stored, k))];
      return true;
    }

    /** Memory is seeded before the rows are erased, so a failed erase loses nothing. */
    method SetRecord(id: string, record: bool, now: int, fails: bool) returns (ok: bool)
      requires Valid()
      modifies this`sessions, ephemeral
      ensures Valid()
      ensures forall turns :: View(turns) == SetMemory(old(View(turns)), id, record, now, fails, ephemeral.Bounds())
      ensures ok <==> id in old(sessions) && !fails
    {
      if id !in sessions {
        return false;
      }
      if !record && sessions[id].record {
        ephemeral.Seed(id, sessions[id].stored, now);
      }
      if fails {
        return false;
      }
      sessions := sessions[id := sessions[id].(record := record, stored := if record then sessions[id].stored else [])];
      return true;
    }
  }
}
