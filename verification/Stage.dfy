/** The actors of a run (`actors.ts`): who answers the requests of a turn, and the loop that follows them (`run.ts`). */
module Stage {
  import opened Common

  datatype Reply = Reply(text: string, result: Option<string>)

  /** An actor, by the replies its scene wrote for it. */
  datatype Actor = Actor(replies: seq<Reply>)

  datatype By = Written | Llm | DryRun

  datatype Exchange = Exchange(agent: string, turn: nat, request: string, taken: bool, reply: Option<string>,
                               result: Option<string>, via: Option<By>, failed: bool)

  /** A request still waiting: its place among the exchanges, and its task; the dove's has none. */
  datatype Pending = Pending(at: nat, task: Option<nat>)

  /** What is told of a result of the dove's. */
  datatype Attention = Attention(at: nat, result: string, text: string)

  datatype Task = Completed(text: string) | Waiting | Unavailable

  /** An answer given: whose, and what; none when nobody could play the actor. */
  datatype Answered = Answered(agent: string, reply: Option<Reply>)

  const DOVE := "poppo"

  function OfAgent(agent: string): Answered -> bool {
    (a: Answered) => a.agent == agent
  }

  function Used(used: map<string, nat>, agent: string): nat {
    if agent in used then used[agent] else 0
  }

  predicate HasReplies(actors: map<string, Actor>, agent: string) {
    agent in actors && actors[agent].replies != []
  }

  /** The reply to the request numbered `k` from 0: the last one again once they run out. */
  function ReplyAt(actors: map<string, Actor>, agent: string, k: nat): Reply
    requires HasReplies(actors, agent)
  {
    var n := |actors[agent].replies|;
    actors[agent].replies[if k < n - 1 then k else n - 1]
  }

  /** Each actor with written replies gave them in order, the last one again and again. */
  ghost predicate InOrder(actors: map<string, Actor>, given: seq<Answered>) {
    forall k :: 0 <= k < |given| && HasReplies(actors, given[k].agent) ==>
      given[k].reply == Some(ReplyAt(actors, given[k].agent, Count(given[..k], OfAgent(given[k].agent))))
  }

  ghost predicate UsedIsCount(actors: map<string, Actor>, used: map<string, nat>, given: seq<Answered>) {
    forall agent <- actors :: HasReplies(actors, agent) ==> Used(used, agent) == Count(given, OfAgent(agent))
  }

  /** Giving an agent's next written reply, and counting it, keeps both. */
  lemma {:induction false} GivenNext(actors: map<string, Actor>, used: map<string, nat>, given: seq<Answered>, answer: Answered)
    requires InOrder(actors, given) && UsedIsCount(actors, used, given)
    requires HasReplies(actors, answer.agent) ==> answer.reply == Some(ReplyAt(actors, answer.agent, Used(used, answer.agent)))
    ensures InOrder(actors, given + [answer])
    ensures UsedIsCount(actors, if HasReplies(actors, answer.agent) then used[answer.agent := Used(used, answer.agent) + 1] else used,
                        given + [answer])
  {
    var after := given + [answer];
    assert after[..|given|] == given;
    forall k | 0 <= k < |given| ensures after[..k] == given[..k] {
    }
    forall agent | agent in actors
      ensures Count(after, OfAgent(agent)) == Count(given, OfAgent(agent)) + if answer.agent == agent then 1 else 0
    {
      CountPush(given, answer, OfAgent(agent));
    }
  }

  ghost predicate Waits(pending: seq<Pending>, task: nat) {
    exists p <- pending :: p.task == Some(task)
  }

  ghost predicate TasksDiffer(pending: seq<Pending>) {
    forall i, j :: 0 <= i < j < |pending| && pending[i].task.Some? ==> pending[i].task != pending[j].task
  }

  /** Waiting, answered and delivered tasks are apart, and of those issued since it last forgot there are no others. */
  ghost predicate Apart(pending: seq<Pending>, answered: map<nat, string>, delivered: set<nat>, since: nat, serial: nat) {
    && since <= serial
    && (forall p <- pending :: p.task.Some? ==> since < p.task.value <= serial)
    && TasksDiffer(pending)
    && (forall t <- answered :: 1 <= t <= serial && t !in delivered && !Waits(pending, t))
    && (forall t <- delivered :: 1 <= t <= serial && !Waits(pending, t))
    && (forall t: nat :: since < t <= serial ==> Waits(pending, t) || t in answered || t in delivered)
  }

  /** Each waiting request has a place of its own among the exchanges. */
  ghost predicate Placed(pending: seq<Pending>, exchanges: seq<Exchange>) {
    && (forall p <- pending :: p.at < |exchanges|)
    && (forall i, j :: 0 <= i < j < |pending| ==> pending[i].at != pending[j].at)
  }

  /** Each request that was taken and has no reply yet is waiting. */
  ghost predicate Awaited(pending: seq<Pending>, exchanges: seq<Exchange>) {
    forall x :: 0 <= x < |exchanges| && exchanges[x].taken && exchanges[x].reply.None? ==> At(pending, x)
  }

  ghost predicate At(pending: seq<Pending>, x: nat) {
    exists p <- pending :: p.at == x
  }

  lemma AwaitedPush(pending: seq<Pending>, exchanges: seq<Exchange>, exchange: Exchange, task: Option<nat>)
    requires Awaited(pending, exchanges)
    ensures Awaited(pending + [Pending(|exchanges|, task)], exchanges + [exchange])
    ensures !exchange.taken ==> Awaited(pending, exchanges + [exchange])
  {
    var after := pending + [Pending(|exchanges|, task)];
    assert after[|pending|].at == |exchanges|;
    forall x: nat | At(pending, x) ensures At(after, x) {
      var p :| p in pending && p.at == x;
      assert p in after;
    }
  }

  lemma WaitsPush(pending: seq<Pending>, p: Pending)
    ensures forall t: nat :: Waits(pending + [p], t) <==> Waits(pending, t) || p.task == Some(t)
  {
    assert (pending + [p])[|pending|] == p;
  }

  lemma TaskTaken(pending: seq<Pending>, answered: map<nat, string>, delivered: set<nat>, since: nat, serial: nat, at: nat)
    requires Apart(pending, answered, delivered, since, serial)
    ensures Apart(pending + [Pending(at, Some(serial + 1))], answered, delivered, since, serial + 1)
    ensures !Waits(pending, serial + 1) && Waits(pending + [Pending(at, Some(serial + 1))], serial + 1)
  {
    WaitsPush(pending, Pending(at, Some(serial + 1)));
  }

  lemma RequestTaken(pending: seq<Pending>, answered: map<nat, string>, delivered: set<nat>, since: nat, serial: nat, at: nat)
    requires Apart(pending, answered, delivered, since, serial)
    ensures Apart(pending + [Pending(at, None)], answered, delivered, since, serial)
  {
    WaitsPush(pending, Pending(at, None));
  }

  lemma {:induction false} FirstAnswered(pending: seq<Pending>, answered: map<nat, string>, delivered: set<nat>, since: nat,
                                         serial: nat, text: string)
    requires Apart(pending, answered, delivered, since, serial) && pending != []
    ensures var task := pending[0].task;
            Apart(pending[1..], if task.Some? then answered[task.value := text] else answered, delivered, since, serial)
  {
    var rest := pending[1..];
    assert pending == [pending[0]] + rest;
    assert forall t: nat :: Waits(pending, t) <==> Waits(rest, t) || pending[0].task == Some(t);
    assert pending[0].task.Some? ==> !Waits(rest, pending[0].task.value);
  }

  // Answering all that waits.

  function Via(actors: map<string, Actor>, model: bool, dryRun: bool, agent: string): Option<By> {
    if HasReplies(actors, agent) then Some(Written)
    else if model then Some(Llm)
    else if dryRun then Some(DryRun)
    else None
  }

  function TextOf(answer: Answered): string {
    if answer.reply.Some? then answer.reply.value.text else ""
  }

  /** What became of a request to the dove: what the reply says, else sent; not sent when there was no reply. */
  function ResultOf(answer: Answered): string {
    if answer.reply.None? then "not_sent"
    else if answer.reply.value.result.Some? then answer.reply.value.result.value
    else "sent"
  }

  /** An exchange once it is answered. */
  function Closed(exchange: Exchange, answer: Answered, dove: bool, via: Option<By>): Exchange {
    exchange.(reply := Some(TextOf(answer)), failed := exchange.failed || answer.reply.None?,
              result := if dove then Some(ResultOf(answer)) else exchange.result,
              via := if via.Some? then via else exchange.via)
  }

  /** What closing changes: the reply's text is recorded, or that there was none; and what became of a request to the dove. */
  predicate IsClosed(was: Exchange, now: Exchange, answer: Answered, dove: bool, via: Option<By>) {
    && now.agent == was.agent && now.turn == was.turn && now.request == was.request && now.taken == was.taken
    && (match answer.reply
        case None => now.reply == Some("") && now.failed && (dove ==> now.result == Some("not_sent"))
        case Some(reply) =>
          && now.reply == Some(reply.text) && now.failed == was.failed
          && (dove ==> now.result == if reply.result.Some? then reply.result else Some("sent")))
    && (!dove ==> now.result == was.result)
    && now.via == if via.Some? then via else was.via
  }

  lemma ClosedIsClosed(exchange: Exchange, answer: Answered, dove: bool, via: Option<By>)
    ensures IsClosed(exchange, Closed(exchange, answer, dove, via), answer, dove, via)
  {
  }

  function AttentionOf(entry: Pending, answer: Answered): seq<Attention> {
    if entry.task.None? then [Attention(entry.at, ResultOf(answer), TextOf(answer))] else []
  }

  /** The attentions raised by answers to the requests of the dove's among those that waited. */
  function Attentions(entries: seq<Pending>, answers: seq<Answered>): seq<Attention>
    requires |entries| == |answers|
  {
    if entries == [] then []
    else
      var n := |entries| - 1;
      Attentions(entries[..n], answers[..n]) + AttentionOf(entries[n], answers[n])
  }

  /** Each exchange that waited is closed by its own answer, and no other is touched. */
  ghost predicate AllClosed(entries: seq<Pending>, answers: seq<Answered>, was: seq<Exchange>, now: seq<Exchange>,
                            actors: map<string, Actor>, model: bool, dryRun: bool)
  {
    && |answers| == |entries| && |now| == |was| && (forall p <- entries :: p.at < |was|)
    && (forall j :: 0 <= j < |entries| ==>
          var at := entries[j].at;
          && answers[j].agent == was[at].agent
          && IsClosed(was[at], now[at], answers[j], entries[j].task.None?, Via(actors, model, dryRun, was[at].agent)))
    && (forall x :: 0 <= x < |was| && (forall j :: 0 <= j < |entries| ==> entries[j].at != x) ==> now[x] == was[x])
  }

  lemma NextClosed(entries: seq<Pending>, answers: seq<Answered>, was: seq<Exchange>, now: seq<Exchange>,
                   actors: map<string, Actor>, model: bool, dryRun: bool, entry: Pending, answer: Answered)
    requires AllClosed(entries, answers, was, now, actors, model, dryRun) && Placed(entries + [entry], was)
    requires entry.at < |was| && answer.agent == was[entry.at].agent
    ensures var closed := Closed(was[entry.at], answer, entry.task.None?, Via(actors, model, dryRun, answer.agent));
            && now[entry.at] == was[entry.at]
            && AllClosed(entries + [entry], answers + [answer], was, now[entry.at := closed], actors, model, dryRun)
  {
    ClosedIsClosed(was[entry.at], answer, entry.task.None?, Via(actors, model, dryRun, answer.agent));
    hide Via, IsClosed, Closed;
    var all := entries + [entry];
    assert all[|entries|] == entry;
    forall j | 0 <= j < |entries| ensures entries[j].at != entry.at {
      assert all[j] == entries[j];
    }
    assert now[entry.at] == was[entry.at];
    forall x | 0 <= x < |was| && (forall j :: 0 <= j < |all| ==> all[j].at != x)
      ensures now[x] == was[x] && x != entry.at
    {
      assert forall j :: 0 <= j < |entries| ==> all[j] == entries[j];
    }
  }

  /** The tasks among those that waited are answered with their own answers' texts; what was answered before stays. */
  ghost predicate AllAnswered(entries: seq<Pending>, answers: seq<Answered>, was: map<nat, string>, now: map<nat, string>) {
    && |answers| == |entries|
    && (forall j :: 0 <= j < |entries| && entries[j].task.Some? ==>
          entries[j].task.value in now && now[entries[j].task.value] == TextOf(answers[j]))
    && (forall t: nat :: !Waits(entries, t) ==> (t in now <==> t in was) && (t in was ==> now[t] == was[t]))
  }

  lemma NextAnswered(entries: seq<Pending>, i: nat, answers: seq<Answered>, was: map<nat, string>, now: map<nat, string>,
                     answer: Answered)
    requires i < |entries| && TasksDiffer(entries) && AllAnswered(entries[..i], answers, was, now)
    ensures var task := entries[i].task;
            AllAnswered(entries[..i] + [entries[i]], answers + [answer], was,
                        if task.Some? then now[task.value := TextOf(answer)] else now)
  {
    hide TextOf;
    WaitsPush(entries[..i], entries[i]);
    forall j | 0 <= j < i && entries[..i][j].task.Some? ensures entries[..i][j].task != entries[i].task {
      assert entries[..i][j] == entries[j];
    }
  }

  lemma NoneClosed(exchanges: seq<Exchange>, answered: map<nat, string>, actors: map<string, Actor>, model: bool, dryRun: bool)
    ensures AllClosed([], [], exchanges, exchanges, actors, model, dryRun) && AllAnswered([], [], answered, answered)
  {
  }

  /** Before its turn a waiting request's exchange is untouched. */
  lemma HasPlace(entries: seq<Pending>, i: nat, answers: seq<Answered>, was: seq<Exchange>, now: seq<Exchange>,
                 actors: map<string, Actor>, model: bool, dryRun: bool)
    requires i < |entries| && Placed(entries, was) && AllClosed(entries[..i], answers, was, now, actors, model, dryRun)
    ensures entries[i].at < |now| == |was| && now[entries[i].at] == was[entries[i].at]
    ensures Placed(entries[..i] + [entries[i]], was)
  {
    hide Via;
    forall j | 0 <= j < i ensures entries[..i][j].at != entries[i].at {
    }
  }

  lemma NextApart(entries: seq<Pending>, i: nat, answered: map<nat, string>, delivered: set<nat>, since: nat, serial: nat, text: string)
    requires i < |entries| && Apart(entries[i..], answered, delivered, since, serial)
    ensures var task := entries[i].task;
            && Apart(entries[i + 1..], if task.Some? then answered[task.value := text] else answered, delivered, since, serial)
  {
    assert entries[i..][1..] == entries[i + 1..];
    FirstAnswered(entries[i..], answered, delivered, since, serial, text);
  }

  lemma AttentionsPush(entries: seq<Pending>, answers: seq<Answered>, entry: Pending, answer: Answered)
    requires |entries| == |answers|
    ensures Attentions(entries + [entry], answers + [answer]) ==
            Attentions(entries, answers) + AttentionOf(entry, answer)
  {
    assert (entries + [entry])[..|entries|] == entries && (answers + [answer])[..|entries|] == answers;
  }

  lemma NothingPlaced(exchanges: seq<Exchange>)
    ensures Placed([], exchanges)
  {
  }

  /** What answering changes, and what it needs to know. */
  datatype Books = Books(exchanges: seq<Exchange>, answered: map<nat, string>, told: seq<Attention>)

  datatype Cast = Cast(actors: map<string, Actor>, model: bool, dryRun: bool, placed: bool)

  /** The books once a request is answered: its exchange closed, its task answered, or its result told if there is a place. */
  function Booked(books: Books, entry: Pending, answer: Answered, cast: Cast): Books
    requires entry.at < |books.exchanges|
  {
    var closed := Closed(books.exchanges[entry.at], answer, entry.task.None?, Via(cast.actors, cast.model, cast.dryRun, answer.agent));
    Books(books.exchanges[entry.at := closed],
          if entry.task.Some? then books.answered[entry.task.value := TextOf(answer)] else books.answered,
          books.told + if cast.placed then AttentionOf(entry, answer) else [])
  }

  /** All of the requests that waited are answered, each by its own answer, in the books they were in. */
  ghost predicate AllBooked(entries: seq<Pending>, answers: seq<Answered>, was: Books, now: Books, cast: Cast) {
    && AllClosed(entries, answers, was.exchanges, now.exchanges, cast.actors, cast.model, cast.dryRun)
    && AllAnswered(entries, answers, was.answered, now.answered)
    && now.told == was.told + if cast.placed then Attentions(entries, answers) else []
  }

  lemma NoneBooked(books: Books, cast: Cast)
    ensures AllBooked([], [], books, books, cast)
  {
    NoneClosed(books.exchanges, books.answered, cast.actors, cast.model, cast.dryRun);
    assert books.told + [] == books.told;
  }

  lemma ApartDiffer(pending: seq<Pending>, answered: map<nat, string>, delivered: set<nat>, since: nat, serial: nat)
    requires Apart(pending, answered, delivered, since, serial)
    ensures TasksDiffer(pending)
  {
  }

  lemma NextBooked(entries: seq<Pending>, i: nat, answers: seq<Answered>, was: Books, now: Books, cast: Cast, answer: Answered)
    requires i < |entries| && Placed(entries, was.exchanges) && TasksDiffer(entries)
    requires entries[i].at < |was.exchanges| && answer.agent == was.exchanges[entries[i].at].agent
    requires AllBooked(entries[..i], answers, was, now, cast)
    ensures entries[i].at < |now.exchanges|
    ensures AllBooked(entries[..i + 1], answers + [answer], was, Booked(now, entries[i], answer, cast), cast)
  {
    hide Placed, TasksDiffer, AllClosed, AllAnswered, Via, Closed, AttentionOf, Attentions, TextOf;
    assert entries[..i + 1] == entries[..i] + [entries[i]];
    HasPlace(entries, i, answers, was.exchanges, now.exchanges, cast.actors, cast.model, cast.dryRun);
    Sized(entries[..i], answers, was.answered, now.answered);
    NextClosed(entries[..i], answers, was.exchanges, now.exchanges, cast.actors, cast.model, cast.dryRun, entries[i], answer);
    NextAnswered(entries, i, answers, was.answered, now.answered, answer);
    AttentionsPush(entries[..i], answers, entries[i], answer);
  }

  /**
   An actor's k-th answered request, counted from 0 over the whole run, gets the k-th written reply, or the last one once they
   have run out: in its exchange, and for the task it may have.
   */
  lemma {:induction false} KthRequestGetsKthReply(actors: map<string, Actor>, model: bool, dryRun: bool, placed: bool,
                                                  entries: seq<Pending>, given: seq<Answered>, start: nat, was: Books, now: Books, j: nat)
    requires start + |entries| == |given| && InOrder(actors, given) && j < |entries|
    requires AllBooked(entries, given[start..], was, now, Cast(actors, model, dryRun, placed))
    requires HasReplies(actors, was.exchanges[entries[j].at].agent)
    ensures var agent := was.exchanges[entries[j].at].agent;
            var reply := ReplyAt(actors, agent, Count(given[..start + j], OfAgent(agent)));
            var exchange := now.exchanges[entries[j].at];
            && exchange.reply == Some(reply.text) && exchange.via == Some(Written)
            && (entries[j].task.Some? ==> entries[j].task.value in now.answered && now.answered[entries[j].task.value] == reply.text)
  {
    assert given[start..][j] == given[start + j];
  }

  /** Once all that waited is answered, every request taken has its reply. */
  lemma {:induction false} NoneAwaited(entries: seq<Pending>, answers: seq<Answered>, was: Books, now: Books, cast: Cast)
    requires AllBooked(entries, answers, was, now, cast) && Awaited(entries, was.exchanges)
    ensures Awaited([], now.exchanges)
  {
    hide Via;
    forall x | 0 <= x < |now.exchanges| && now.exchanges[x].taken ensures now.exchanges[x].reply.Some? {
      if j :| 0 <= j < |entries| && entries[j].at == x {
        assert now.exchanges[x].reply.Some?;
      } else {
        assert now.exchanges[x] == was.exchanges[x];
        assert !At(entries, x);
      }
    }
  }

  lemma Sized(entries: seq<Pending>, answers: seq<Answered>, was: map<nat, string>, now: map<nat, string>)
    requires AllAnswered(entries, answers, was, now)
    ensures |answers| == |entries|
  {
  }

  lemma AnsweredOf(books: Books, entry: Pending, answer: Answered, cast: Cast)
    requires entry.at < |books.exchanges|
    ensures Booked(books, entry, answer, cast).answered ==
            if entry.task.Some? then books.answered[entry.task.value := TextOf(answer)] else books.answered
  {
  }

  /** Before its turn a request's exchange is as it was. */
  lemma InItsTurn(entries: seq<Pending>, i: nat, answers: seq<Answered>, was: Books, now: Books, cast: Cast)
    requires i < |entries| && Placed(entries, was.exchanges) && AllBooked(entries[..i], answers, was, now, cast)
    ensures entries[i].at < |now.exchanges| == |was.exchanges|
    ensures now.exchanges[entries[i].at] == was.exchanges[entries[i].at]
  {
    HasPlace(entries, i, answers, was.exchanges, now.exchanges, cast.actors, cast.model, cast.dryRun);
  }

  method CloseExchange(exchange: Exchange, answer: Answered, dove: bool, via: Option<By>) returns (closed: Exchange)
    ensures closed == Closed(exchange, answer, dove, via)
  {
    closed := exchange;
    if via.Some? {
      closed := closed.(via := via);
    }
    if answer.reply.None? {
      closed := closed.(failed := true);
    }
    closed := closed.(reply := Some(TextOf(answer)));
    if dove {
      closed := closed.(result := Some(ResultOf(answer)));
    }
  }

  class Stage {
    const actors: map<string, Actor>
    const model: bool
    const dryRun: bool
    var exchanges: seq<Exchange>
    var pending: seq<Pending>
    var answered: map<nat, string>
    var used: map<string, nat>
    var placed: bool
    var told: seq<Attention>
    var serial: nat
    var turn: nat
    /** Every answer ever given, the serial number when it last forgot, and the tasks handed out as completed. */
    ghost var given: seq<Answered>
    ghost var since: nat
    ghost var delivered: set<nat>

    ghost function State(): Books
      reads this
    {
      Books(exchanges, answered, told)
    }

    ghost function Played(): Cast
      reads this
    {
      Cast(actors, model, dryRun, placed)
    }

    ghost predicate Valid()
      reads this
    {
      && Apart(pending, answered, delivered, since, serial) && Placed(pending, exchanges) && Awaited(pending, exchanges)
      && InOrder(actors, given) && UsedIsCount(actors, used, given)
    }

    constructor (actors: map<string, Actor>, model: bool, dryRun: bool)
      ensures Valid() && this.actors == actors && this.model == model && this.dryRun == dryRun
      ensures exchanges == [] && pending == [] && serial == 0 && turn == 1 && given == [] && !placed && told == []
    {
      this.actors, this.model, this.dryRun := actors, model, dryRun;
      exchanges, pending, answered, used, placed, told, serial, turn := [], [], map[], map[], false, [], 0, 1;
      given, since, delivered := [], 0, {};
    }

    /** client.send: the request is taken, and its task waits. An agent that is no actor of the run is refused. */
    method Send(agent: string, request: string) returns (task: Option<nat>)
      requires Valid()
      modifies `exchanges, `pending, `serial
      ensures Valid()
      ensures task.Some? <==> agent in actors
      ensures task.None? ==> exchanges == old(exchanges) && pending == old(pending) && serial == old(serial)
      ensures task.Some? ==>
                && serial == old(serial) + 1 && task == Some(serial)
                && exchanges == old(exchanges) + [Exchange(agent, turn, request, true, None, None, None, false)]
                && pending == old(pending) + [Pending(|old(exchanges)|, task)]
                && !Waits(old(pending), serial) && Waits(pending, serial)
    {
      hide Apart, InOrder, UsedIsCount, Waits, Awaited;
      if agent !in actors {
        return None;
      }
      TaskTaken(pending, answered, delivered, since, serial, |exchanges|);
      AwaitedPush(pending, exchanges, Exchange(agent, turn, request, true, None, None, None, false), Some(serial + 1));
      serial := serial + 1;
      task := Some(serial);
      exchanges := exchanges + [Exchange(agent, turn, request, true, None, None, None, false)];
      pending := pending + [Pending(|exchanges| - 1, task)];
    }

    /** client.getTask: an answer is handed out once; a task neither answered nor waiting is none of the run's. */
    method GetTask(task: nat) returns (view: Task)
      requires Valid()
      modifies `answered, `delivered
      ensures Valid()
      ensures view.Completed? <==> task in old(answered)
      ensures view.Completed? ==>
                && view.text == old(answered)[task] && answered == old(answered) - {task} && delivered == old(delivered) + {task}
      ensures view.Waiting? <==> Waits(pending, task)
      ensures !view.Completed? ==> answered == old(answered) && delivered == old(delivered)
    {
      hide InOrder, UsedIsCount, Placed, Awaited;
      if task in answered {
        view := Completed(answered[task]);
        answered := answered - {task};
        delivered := delivered + {task};
        return;
      }
      var i := 0;
      while i < |pending|
        invariant i <= |pending| && forall p <- pending[..i] :: p.task != Some(task)
      {
        if pending[i].task == Some(task) {
          return Waiting;
        }
        i := i + 1;
      }
      view := Unavailable;
    }

    /** dove.ask: a request out of shape, or with nowhere to put its result, is turned back and not taken. */
    method Ask(request: string, shaped: bool) returns (ok: bool)
      requires Valid()
      modifies `exchanges, `pending
      ensures Valid()
      ensures ok <==> shaped && placed
      ensures exchanges == old(exchanges) + [Exchange(DOVE, turn, request, ok, None, None, None, false)]
      ensures pending == if ok then old(pending) + [Pending(|old(exchanges)|, None)] else old(pending)
    {
      hide Apart, InOrder, UsedIsCount, Waits, Awaited;
      ok := shaped && placed;
      AwaitedPush(pending, exchanges, Exchange(DOVE, turn, request, ok, None, None, None, false), None);
      exchanges := exchanges + [Exchange(DOVE, turn, request, ok, None, None, None, false)];
      if ok {
        RequestTaken(pending, answered, delivered, since, serial, |exchanges| - 1);
        pending := pending + [Pending(|exchanges| - 1, None)];
      }
    }

    predicate HasPending()
      reads this
    {
      |pending| > 0
    }

    /** Forgets what was asked so far. What was answered and not fetched, what was used and the serial number stay. */
    method Forget()
      requires Valid()
      modifies `exchanges, `pending, `since
      ensures Valid() && exchanges == [] && !HasPending() && since == serial
    {
      hide InOrder, UsedIsCount;
      exchanges := [];
      pending := [];
      since := serial;
    }

    /** The answer to one request: written, or played by the model if there is one, or a dry run's; else nobody plays it. */
    method Answer(agent: string, played: Option<Reply>) returns (reply: Option<Reply>, via: Option<By>)
      requires InOrder(actors, given) && UsedIsCount(actors, used, given)
      modifies `used, `given
      ensures InOrder(actors, given) && UsedIsCount(actors, used, given)
      ensures given == old(given) + [Answered(agent, reply)]
      ensures via == Via(actors, model, dryRun, agent)
      ensures via == Some(Written) <==> HasReplies(actors, agent)
      ensures via == Some(Llm) <==> !HasReplies(actors, agent) && model
      ensures via == Some(DryRun) <==> !HasReplies(actors, agent) && !model && dryRun
      ensures via == Some(Llm) ==> reply == played
      ensures via == Some(DryRun) ==>
                reply == Some(Reply("（ドライラン: " + agent + " の返事）", if agent == DOVE then Some("sent") else None))
      ensures via == None ==> reply == None
    {
      hide InOrder, UsedIsCount;
      if agent in actors && |actors[agent].replies| > 0 {
        var index := if agent in used then used[agent] else 0;
        var n := |actors[agent].replies|;
        reply := Some(actors[agent].replies[if index < n - 1 then index else n - 1]);
        via := Some(Written);
        GivenNext(actors, used, given, Answered(agent, reply));
        used := used[agent := index + 1];
      } else {
        if model {
          reply, via := played, Some(Llm);
        } else if dryRun {
          reply := Some(Reply("（ドライラン: " + agent + " の返事）", if agent == DOVE then Some("sent") else None));
          via := Some(DryRun);
        } else {
          reply, via := None, None;
        }
        GivenNext(actors, used, given, Answered(agent, reply));
      }
      given := given + [Answered(agent, reply)];
    }

    /** One request gets its reply: its task is answered, or its result told if there is a place for it. */
    method AnswerOne(entry: Pending, played: Option<Reply>) returns (answer: Answered, recorded: bool)
      requires entry.at < |exchanges| && InOrder(actors, given) && UsedIsCount(actors, used, given)
      modifies `exchanges, `answered, `used, `told, `given
      ensures InOrder(actors, given) && UsedIsCount(actors, used, given)
      ensures answer.agent == old(exchanges)[entry.at].agent && given == old(given) + [answer]
      ensures State() == Booked(old(State()), entry, answer, Played())
      ensures recorded <==> placed && entry.task.None?
    {
      hide InOrder, UsedIsCount, Via, TextOf, ResultOf, Closed;
      var exchange := exchanges[entry.at];
      var reply, via := Answer(exchange.agent, played);
      answer := Answered(exchange.agent, reply);
      recorded := false;
      exchange := CloseExchange(exchange, answer, entry.task.None?, via);
      exchanges := exchanges[entry.at := exchange];
      if entry.task.Some? {
        answered := answered[entry.task.value := TextOf(answer)];
      } else if placed {
        told := told + [Attention(entry.at, ResultOf(answer), TextOf(answer))];
        recorded := true;
      }
    }

    /**
     Every request still waiting gets its actor's reply; `played(i)` is what the model answers to the i-th, if it plays.
     The dove's results are told here; the agents' wait to be fetched.
     */
    method AnswerPending(played: nat -> Option<Reply>) returns (notified: bool)
      requires Valid()
      modifies `exchanges, `pending, `answered, `used, `told, `given
      ensures Valid() && !HasPending()
      ensures |given| == |old(given)| + |old(pending)| && old(given) <= given
      ensures AllBooked(old(pending), given[|old(given)|..], old(State()), State(), Played())
      ensures notified <==> placed && exists p <- old(pending) :: p.task.None?
    {
      hide Apart, Placed, Awaited, InOrder, UsedIsCount, AllBooked, Booked, TextOf, TasksDiffer;
      NoneBooked(State(), Played());
      ApartDiffer(pending, answered, delivered, since, serial);
      notified := false;
      var entries := pending;
      pending := [];
      ghost var start, was := |given|, State();
      assert given[start..] == [] && entries[..0] == [] && entries[0..] == entries;
      for i := 0 to |entries|
        invariant pending == [] && |given| == start + i && old(given) <= given
        invariant Apart(entries[i..], answered, delivered, since, serial)
        invariant InOrder(actors, given) && UsedIsCount(actors, used, given)
        invariant AllBooked(entries[..i], given[start..], was, State(), Played())
        invariant notified <==> placed && exists p <- entries[..i] :: p.task.None?
      {
        ghost var before, now := given[start..], State();
        InItsTurn(entries, i, before, was, now, Played());
        var answer, recorded := AnswerOne(entries[i], played(i));
        notified := notified || recorded;
        assert given[start..] == before + [answer];
        NextBooked(entries, i, before, was, now, Played(), answer);
        NextApart(entries, i, now.answered, delivered, since, serial, TextOf(answer));
        AnsweredOf(now, entries[i], answer, Played());
      }
      assert entries[..|entries|] == entries && entries[|entries|..] == [];
      NothingPlaced(exchanges);
      NoneAwaited(entries, given[start..], was, State(), Played());
    }
  }

  // The loop that follows the replies.

  datatype Request = ToAgent(agent: string, text: string) | ToDove(text: string, shaped: bool)

  /** What the thinking loop does once the answers are in: the tasks it fetches, the turns it makes, what they ask. */
  datatype Round = Round(fetched: seq<nat>, turns: nat, requests: seq<Request>)

  lemma NoneUnanswered(exchanges: seq<Exchange>)
    requires Awaited([], exchanges)
    ensures forall e <- exchanges :: e.taken ==> e.reply.Some?
  {
    forall e <- exchanges ensures e.taken ==> e.reply.Some? {
      var x :| 0 <= x < |exchanges| && exchanges[x] == e;
      assert !At([], x);
    }
  }

  /** Requests arise only in turns. */
  predicate OnlyTurnsAsk(round: Round) {
    round.turns == 0 ==> round.requests == []
  }

  /** What is recorded of a request when it is made: nothing of one to an agent that is no actor. */
  function Recorded(request: Request, turn: nat, cast: Cast): seq<Exchange> {
    match request
    case ToAgent(agent, text) =>
      if agent in cast.actors then [Exchange(agent, turn, text, true, None, None, None, false)] else []
    case ToDove(text, shaped) => [Exchange(DOVE, turn, text, shaped && cast.placed, None, None, None, false)]
  }

  function AllRecorded(requests: seq<Request>, turn: nat, cast: Cast): seq<Exchange> {
    if requests == [] then []
    else AllRecorded(requests[..|requests| - 1], turn, cast) + Recorded(requests[|requests| - 1], turn, cast)
  }

  /** An exchange as it was when it was asked. */
  function AsAsked(exchange: Exchange): Exchange {
    exchange.(reply := None, result := None, via := None, failed := false)
  }

  /** Two lists of the same requests, in the same turns, whatever was answered. */
  predicate SameAsked(a: seq<Exchange>, b: seq<Exchange>) {
    |a| == |b| && forall x :: 0 <= x < |a| ==> AsAsked(a[x]) == AsAsked(b[x])
  }

  lemma AnsweringAsksNothing(entries: seq<Pending>, answers: seq<Answered>, was: Books, now: Books, cast: Cast)
    requires AllBooked(entries, answers, was, now, cast)
    ensures SameAsked(was.exchanges, now.exchanges)
  {
    hide Via, AllAnswered, Attentions;
    forall x | 0 <= x < |was.exchanges| ensures AsAsked(now.exchanges[x]) == AsAsked(was.exchanges[x]) {
      if j :| 0 <= j < |entries| && entries[j].at == x {
        assert answers[j].agent == was.exchanges[x].agent;
      }
    }
  }

  /** The rows there are after the first `n` rounds, of which there were `first` before. */
  function RowsAfter(loop: nat -> Round, first: nat, n: nat): nat {
    if n == 0 then first else RowsAfter(loop, first, n - 1) + loop(n - 1).turns
  }

  /** What is asked in the first `n` rounds: each round's requests in the turn after the rows there were when it began. */
  function AskedIn(loop: nat -> Round, first: nat, n: nat, cast: Cast): seq<Exchange> {
    if n == 0 then []
    else AskedIn(loop, first, n - 1, cast) + AllRecorded(loop(n - 1).requests, RowsAfter(loop, first, n - 1) + 1, cast)
  }

  lemma MoreAsked(was: seq<Exchange>, before: seq<Exchange>, now: seq<Exchange>, asked: seq<Exchange>, more: seq<Exchange>)
    requires SameAsked(was + asked, before) && SameAsked(before + more, now)
    ensures SameAsked(was + (asked + more), now)
  {
    assert was + (asked + more) == was + asked + more;
  }

  method Fetch(stage: Stage, fetched: seq<nat>)
    requires stage.Valid()
    modifies stage`answered, stage`delivered
    ensures stage.Valid()
    ensures stage.answered == map t | t in old(stage.answered) && t !in fetched :: old(stage.answered)[t]
  {
    hide Apart, Placed, Awaited, InOrder, UsedIsCount;
    for i := 0 to |fetched|
      invariant stage.Valid()
      invariant stage.answered == map t | t in old(stage.answered) && t !in fetched[..i] :: old(stage.answered)[t]
    {
      var _ := stage.GetTask(fetched[i]);
      assert fetched[..i + 1] == fetched[..i] + [fetched[i]];
    }
    assert fetched[..|fetched|] == fetched;
  }

  method Take(stage: Stage, request: Request)
    requires stage.Valid()
    modifies stage`exchanges, stage`pending, stage`serial
    ensures stage.Valid()
    ensures stage.exchanges == old(stage.exchanges) + Recorded(request, stage.turn, stage.Played())
  {
    hide Apart, Placed, Awaited, InOrder, UsedIsCount;
    match request {
      case ToAgent(agent, text) => var _ := stage.Send(agent, text);
      case ToDove(text, shaped) => var _ := stage.Ask(text, shaped);
    }
  }

  method TakeAll(stage: Stage, requests: seq<Request>)
    requires stage.Valid()
    modifies stage`exchanges, stage`pending, stage`serial
    ensures stage.Valid()
    ensures stage.exchanges == old(stage.exchanges) + AllRecorded(requests, stage.turn, stage.Played())
    ensures requests == [] ==> stage.pending == old(stage.pending)
  {
    hide Apart, Placed, Awaited, InOrder, UsedIsCount, Recorded;
    for i := 0 to |requests|
      invariant stage.Valid()
      invariant stage.exchanges == old(stage.exchanges) + AllRecorded(requests[..i], stage.turn, stage.Played())
      invariant i == 0 ==> stage.pending == old(stage.pending)
    {
      assert requests[..i + 1][..i] == requests[..i];
      Take(stage, requests[i]);
    }
    assert requests[..|requests|] == requests;
  }

  /** All that waits is answered; the loop fetches the answers it does, and asks what its turns ask. */
  method MakeRound(stage: Stage, round: Round, played: nat -> Option<Reply>)
    requires stage.Valid()
    modifies stage`exchanges, stage`pending, stage`answered, stage`used, stage`told, stage`given, stage`delivered, stage`serial
    ensures stage.Valid()
    ensures SameAsked(old(stage.exchanges) + AllRecorded(round.requests, stage.turn, stage.Played()), stage.exchanges)
    ensures round.requests == [] ==> !stage.HasPending()
  {
    hide Apart, Placed, Awaited, InOrder, UsedIsCount, AllBooked, AsAsked, AllRecorded, Recorded;
    ghost var entries, was, start := stage.pending, stage.State(), |stage.given|;
    var _ := stage.AnswerPending(played);
    AnsweringAsksNothing(entries, stage.given[start..], was, stage.State(), stage.Played());
    Fetch(stage, round.fetched);
    TakeAll(stage, round.requests);
  }

  /**
   Answers what the turn asked, and lets the loop take the answers, until nothing waits or the turns run out. As long as
   requests arise only in turns, it ends, after no more rounds than there were turns left; and if turns are left then,
   every request that was taken has its reply. The requests of each round are recorded in the turn it makes.
   */
  method Follow(stage: Stage, maxTurns: Option<nat>, first: nat, loop: nat -> Round, played: (nat, nat) -> Option<Reply>)
    returns (rounds: nat, rows: nat)
    requires stage.Valid() && forall i: nat :: OnlyTurnsAsk(loop(i))
    modifies stage
    ensures stage.Valid()
    ensures rounds <= if maxTurns.Some? && first < maxTurns.value then maxTurns.value - first else 0
    ensures rows == RowsAfter(loop, first, rounds)
    ensures SameAsked(old(stage.exchanges) + AskedIn(loop, first, rounds, old(stage.Played())), stage.exchanges)
    ensures maxTurns.Some? && rows < maxTurns.value ==> !stage.HasPending() && forall e <- stage.exchanges :: e.taken ==> e.reply.Some?
    ensures maxTurns.None? ==> stage.pending == old(stage.pending) && stage.exchanges == old(stage.exchanges)
  {
    hide Apart, Placed, Awaited, InOrder, UsedIsCount, AllBooked, SameAsked, AsAsked, AllRecorded, Recorded;
    rounds, rows := 0, first;
    assert SameAsked(old(stage.exchanges) + [], stage.exchanges) by {
      SameAskedAtFirst(stage.exchanges);
    }
    while maxTurns.Some? && stage.HasPending() && rows < maxTurns.value
      invariant stage.Valid() && rows >= first && stage.Played() == old(stage.Played())
      invariant rows == RowsAfter(loop, first, rounds)
      invariant SameAsked(old(stage.exchanges) + AskedIn(loop, first, rounds, old(stage.Played())), stage.exchanges)
      invariant maxTurns.None? ==> stage.pending == old(stage.pending) && stage.exchanges == old(stage.exchanges)
      invariant rounds <= rows - first + if stage.HasPending() then 0 else 1
      invariant rounds <= if maxTurns.Some? && first < maxTurns.value then maxTurns.value - first else 0
      decreases if maxTurns.Some? then maxTurns.value - rows else 0, |stage.pending|
    {
      var round, nth := loop(rounds), rounds;
      assert OnlyTurnsAsk(round);
      stage.turn := rows + 1;
      ghost var before := stage.exchanges;
      MakeRound(stage, round, (i: nat) => played(nth, i));
      MoreAsked(old(stage.exchanges), before, stage.exchanges, AskedIn(loop, first, rounds, old(stage.Played())),
                AllRecorded(round.requests, rows + 1, stage.Played()));
      rows := rows + round.turns;
      rounds := rounds + 1;
    }
    if maxTurns.Some? && rows < maxTurns.value {
      assert stage.pending == [];
      NoneUnanswered(stage.exchanges);
    }
  }

  lemma SameAskedAtFirst(exchanges: seq<Exchange>)
    ensures SameAsked(exchanges + [], exchanges)
  {
  }
}
