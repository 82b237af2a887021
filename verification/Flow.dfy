/** The flow itself: the loops over the work list, the retry plugin and the acknowledgements, each
    proved to do to the state what FlowState says. */
module Flow {
  import opened Sequences
  import opened Worklist
  import opened FlowState

  class Lists {
    var incoming: seq<Message>
    var ok: seq<Message>
    var rejected: seq<Message>
    var failed: seq<Message>

    constructor ()
      ensures incoming == ok == rejected == failed == []
    {
      incoming, ok, rejected, failed := [], [], [], [];
    }
  }

  /** The source of messages, which is told when one has been dealt with. */
  class Consumer {
    var unacked: set<nat>
    var sent: seq<nat>

    constructor ()
      ensures unacked == {} && sent == []
    {
      unacked, sent := {}, [];
    }

    method Ack(ms: seq<Message>)
      modifies this
      ensures Acks(unacked, sent) == AckAll(Acks(old(unacked), old(sent)), ms)
    {
      ghost var start := Acks(unacked, sent);
      assert ms[..0] == [];
      for i := 0 to |ms|
        invariant Acks(unacked, sent) == AckAll(start, ms[..i])
      {
        assert ms[..i + 1][..i] == ms[..i];
        if ms[i].id in unacked {
          sent := sent + [ms[i].id];
          unacked := unacked - {ms[i].id};
        }
      }
      assert ms[..|ms|] == ms;
    }
  }

  /** The retry plugin, over its two queues. */
  class Retry {
    const o: Options
    var download: Pending
    var post: Pending
    ghost var gaveUp: seq<Message>

    constructor (o: Options)
      ensures this.o == o && download == post == Pending([], []) && gaveUp == []
    {
      this.o := o;
      download, post, gaveUp := Pending([], []), Pending([], []), [];
    }

    method SetIsRetry(ms: seq<Message>, scrub: bool) returns (r: seq<Message>)
      ensures r == BumpAll(ms, scrub)
    {
      r := [];
      for i := 0 to |ms|
        invariant |r| == i && forall j | 0 <= j < i :: r[j] == Bump(if scrub then Scrub(ms[j]) else ms[j])
      {
        var m := if scrub then Scrub(ms[i]) else ms[i];
        m := m.(retries := m.retries + 1);
        r := r + [m];
      }
    }

    method FilterByRetryCount(ms: seq<Message>) returns (kept: seq<Message>)
      modifies this`gaveUp
      ensures kept == Kept(ms, o) && gaveUp == old(gaveUp) + GivenUp(ms, o)
    {
      if o.retryCountMax <= 0 {
        KeptAll(ms, o);
        return ms;
      }
      kept := [];
      assert ms[..0] == [];
      for i := 0 to |ms|
        invariant kept == Kept(ms[..i], o) && gaveUp == old(gaveUp) + GivenUp(ms[..i], o)
      {
        assert ms[..i + 1][..i] == ms[..i];
        if ms[i].retries > o.retryCountMax {
          gaveUp := gaveUp + [ms[i]];
        } else {
          kept := kept + [ms[i]];
        }
      }
      assert ms[..|ms|] == ms;
    }

    method Gather(qty: int) returns (r: seq<Message>)
      modifies this
      ensures post == old(post)
      ensures if o.refilter && qty > 0 then
                var pulled := BumpAll(First(old(download), qty), true);
                r == Kept(pulled, o) && gaveUp == old(gaveUp) + GivenUp(pulled, o)
                && download == Rest(old(download), qty)
              else r == [] && gaveUp == old(gaveUp) && download == old(download)
    {
      if !o.refilter || qty <= 0 {
        return [];
      }
      r := First(download, qty);
      download := Rest(download, qty);
      r := SetIsRetry(r, true);
      r := FilterByRetryCount(r);
    }

    method AfterAccept(worklist: Lists)
      modifies this, worklist`incoming
      ensures post == old(post)
      ensures var n := |old(worklist.incoming)|;
              if o.refilter || Size(old(download)) < 1 || Room(o.batch, n) == 0 then
                worklist.incoming == old(worklist.incoming) && gaveUp == old(gaveUp) && download == old(download)
              else
                var pulled := BumpAll(First(old(download), Room(o.batch, n)), false);
                && worklist.incoming == old(worklist.incoming) + Kept(pulled, o)
                && gaveUp == old(gaveUp) + GivenUp(pulled, o) && download == Rest(old(download), Room(o.batch, n))
    {
      if o.refilter || Size(download) < 1 {
        return;
      }
      var qty := Room(o.batch, |worklist.incoming|);
      if qty <= 0 {
        return;
      }
      var ms := First(download, qty);
      download := Rest(download, qty);
      ms := SetIsRetry(ms, false);
      ms := FilterByRetryCount(ms);
      if |ms| > 0 {
        worklist.incoming := worklist.incoming + ms;
      }
    }

    method AfterWork(worklist: Lists)
      modifies this, worklist`ok, worklist`failed
      ensures var b := BumpAll(old(worklist.failed), false);
              && gaveUp == old(gaveUp) + GivenUp(b, o)
              && download == old(download).(waiting := old(download).waiting + Kept(b, o))
      ensures worklist.failed == []
      ensures var qty := PostRoom(o.batch, |old(worklist.ok)|);
              if Size(old(post)) < 1 || qty <= 0 then worklist.ok == old(worklist.ok) && post == old(post)
              else worklist.ok == old(worklist.ok) + First(old(post), qty) && post == Rest(old(post), qty)
    {
      if |worklist.failed| != 0 {
        var b := SetIsRetry(worklist.failed, false);
        var toRetry := FilterByRetryCount(b);
        download := download.(waiting := download.waiting + toRetry);
        worklist.failed := [];
      }
      if Size(post) < 1 {
        return;
      }
      var qty := 0;
      if o.batch > 2 {
        qty := o.batch / 2 - |worklist.ok|;
      } else if |worklist.ok| < o.batch {
        qty := o.batch - |worklist.ok|;
      }
      if qty <= 0 {
        return;
      }
      var ms := First(post, qty);
      post := Rest(post, qty);
      if |ms| > 0 {
        worklist.ok := worklist.ok + ms;
      }
    }

    method AfterPost(worklist: Lists)
      modifies this
      ensures var b := BumpAll(worklist.failed, false);
              && gaveUp == old(gaveUp) + GivenUp(b, o)
              && post == old(post).(waiting := old(post).waiting + Kept(b, o))
      ensures download == old(download)
    {
      var b := SetIsRetry(worklist.failed, false);
      var toRetry := FilterByRetryCount(b);
      post := post.(waiting := post.waiting + toRetry);
    }
  }

  lemma {:induction false} KeptAll(ms: seq<Message>, o: Options)
    requires o.retryCountMax <= 0
    ensures Kept(ms, o) == ms && GivenUp(ms, o) == []
  {
    if ms != [] {
      KeptAll(ms[..|ms| - 1], o);
    }
  }

  class Flow {
    const o: Options
    const worklist: Lists
    const retry: Retry
    const consumer: Consumer
    ghost var done: seq<Message>
    ghost var refused: seq<Message>
    ghost var dropped: seq<Message>

    constructor (o: Options)
      ensures this.o == o && retry.o == o && fresh(worklist) && fresh(retry) && fresh(consumer)
      ensures View() == State([], [], [], [], Pending([], []), Pending([], []), Acks({}, []), [], [], [], [])
    {
      this.o := o;
      worklist := new Lists();
      retry := new Retry(o);
      consumer := new Consumer();
      done, refused, dropped := [], [], [];
    }

    ghost function View(): State
      reads this, worklist, retry, consumer
    {
      State(worklist.incoming, worklist.ok, worklist.rejected, worklist.failed, retry.download, retry.post,
            Acks(consumer.unacked, consumer.sent), done, refused, retry.gaveUp, dropped)
    }

    method Gather(arrived: seq<Message>, qty: int)
      requires retry.o == o
      modifies worklist, retry, consumer
      ensures View() == Gathered(old(View()), arrived, qty, o)
    {
      worklist.incoming := worklist.incoming + arrived;
      consumer.unacked := consumer.unacked + IdSet(arrived);
      var more := retry.Gather(qty);
      worklist.incoming := worklist.incoming + more;
    }

    method Enter(e: Entry)
      modifies worklist, `dropped
      ensures View() == Put(old(View()), e)
    {
      match e.place {
        case Incoming => worklist.incoming := worklist.incoming + [e.m];
        case Ok => worklist.ok := worklist.ok + [e.m];
        case Rejected => worklist.rejected := worklist.rejected + [e.m];
        case Failed => worklist.failed := worklist.failed + [e.m];
        case Nowhere => dropped := dropped + [e.m];
      }
    }

    /** The comparison of a message's path with the masks, in their order. */
    method ApplyMasks(m: Message, i: nat, w: World) returns (e: Entry)
      ensures e == ByMask(m, o, w, i)
    {
      var m := m;
      var oldMatched := false;
      if IsRename(m) {
        // The loop over the masks is left after the first, whether the old name meets it or not.
        if |o.masks| > 0 {
          if o.masks[0].any {
            oldMatched := o.masks[0].accepting;
          } else if w.oldMatches(i) {
            oldMatched := o.masks[0].accepting;
          }
        }
      }
      var k: nat := 0;
      while k < |o.masks|
        invariant k <= |o.masks| && MaskFrom(o, w, i, 0) == MaskFrom(o, w, i, k)
        decreases |o.masks| - k
      {
        if o.masks[k].any || w.matches(i, k) {
          if !o.masks[k].accepting {
            if IsRename(m) && oldMatched {
              return Entry(Nowhere, m.(renameUnlink := true));
            }
            return Refuse(m, 404);
          }
          return Take(m, w, i);
        }
        k := k + 1;
      }
      if IsRename(m) && oldMatched {
        m := m.(renameUnlink := true);
        return Take(m, w, i);
      }
      if o.acceptUnmatched {
        return Take(m, w, i);
      }
      return Refuse(m, 404);
    }

    /** The loop of the filter. */
    method SortIncoming(w: World)
      modifies worklist, `dropped
      ensures View() == Filtered(old(View()), o, w)
    {
      var ms := worklist.incoming;
      worklist.incoming := [];
      ghost var start := View();
      assert ms[..0] == [];
      for i := 0 to |ms|
        invariant View() == PutAll(start, FilterAll(ms[..i], o, w))
      {
        var m := ms[i];
        var e;
        if o.messageAgeMax != 0 && w.now - m.pubTime > o.messageAgeMax {
          e := Refuse(m, 504);
        } else if m.mtime.Some? && o.fileAgeMax > 0 && w.now - m.mtime.value > o.fileAgeMax {
          e := Refuse(m, 410);
        } else if m.mtime.Some? && !o.poll && o.fileAgeMin > 0 && w.now - m.mtime.value < o.fileAgeMin {
          e := Entry(Failed, m);
        } else {
          e := ApplyMasks(m, i, w);
        }
        assert e == FilterOne(m, o, w, i);
        hide PutAll, FilterAll, FilterOne;
        PutSnoc(start, FilterAll(ms[..i], o, w), e);
        FilterTake(ms, i, o, w);
        Enter(e);
      }
      assert ms[..|ms|] == ms;
    }

    /** The filter: the loop, the room left given to retries, and the acknowledgements. */
    method Filter(w: World)
      requires retry.o == o
      modifies worklist, retry, consumer, `done, `refused, `dropped
      ensures View() == AfterFilter(old(View()), o, w)
    {
      SortIncoming(w);
      hide Filtered;
      retry.AfterAccept(worklist);
      consumer.Ack(worklist.ok);
      done := done + worklist.ok;
      worklist.ok := [];
      consumer.Ack(worklist.rejected);
      refused := refused + worklist.rejected;
      worklist.rejected := [];
      consumer.Ack(worklist.failed);
    }

    method Land(m: Message, place: Place, report: nat)
      modifies worklist, `dropped
      ensures View() == Put(old(View()), Landed(m, Landing(place, report)))
    {
      Enter(Landed(m, Landing(place, report)));
    }

    /** The file operation of a message, tried up to `attempts` times. */
    method DoFileOp(m: Message, i: nat, w: World) returns (finished: bool)
      requires m.fileOp.Some?
      modifies worklist, `dropped
      ensures FileOpFrom(m, o, w, i, 1).Stop? && finished == FileOpFrom(m, o, w, i, 1).finished
      ensures View() == PutOption(old(View()), m, FileOpFrom(m, o, w, i, 1).put)
    {
      var f := m.fileOp.value;
      var attempt := 1;
      while attempt <= o.attempts
        invariant attempt >= 1 && View() == old(View())
        invariant FileOpFrom(m, o, w, i, 1) == FileOpFrom(m, o, w, i, attempt)
        decreases o.attempts - attempt
      {
        if f.rename {
          if m.renameUnlink {
            Land(m, Ok, 201);
            return false;
          } else {
            var ok := w.rename(i, attempt);
            if ok {
              Land(m, Ok, 201);
              return f.link || f.directory;
            } else if !f.link && !f.hlink && !f.directory {
              return false;
            }
          }
        } else if f.directory && f.remove {
          if Rmdir !in o.events {
            Land(m, Rejected, 202);
            return true;
          }
          if w.removeOne(i, attempt) {
            Land(m, Ok, 201);
            return true;
          }
        } else if f.remove {
          if Delete !in o.events {
            Land(m, Rejected, 202);
            return true;
          }
          if w.removeOne(i, attempt) {
            Land(m, Ok, 201);
            return true;
          } else {
            Land(m, Rejected, 500);
            return true;
          }
        }

        if f.directory && !f.remove {
          if Mkdir !in o.events {
            Land(m, Rejected, 202);
            return true;
          }
          if w.mkdir(i, attempt) {
            Land(m, Ok, 201);
            return true;
          }
        } else if (f.link || f.hlink) && !f.rename {
          if Link !in o.events {
            Land(m, Rejected, 202);
            return true;
          }
          if w.link(i, attempt) {
            Land(m, Ok, 201);
            return true;
          } else {
            if !f.hlink {
              Land(m, Rejected, 500);
              return true;
            }
            return false;
          }
        }
        attempt := attempt + 1;
      }
      Land(m, Failed, 0);
      return true;
    }

    /** The transfer of a plain file. */
    method Transfer(m: Message, i: nat, w: World)
      modifies worklist, `dropped
      ensures View() == Put(old(View()), Landed(m, Worklist.Transfer(m, o, w, i)))
    {
      if o.fileSizeMax > 0 && m.size.Some? && m.size.value > o.fileSizeMax {
        Land(m, Rejected, 413);
        return;
      }
      if o.inflight == Interval && !m.inplace {
        Land(m, Rejected, 503);
        return;
      }
      if o.inflight != NoInflight && w.inflightThere(i) {
        Land(m, Failed, 0);
        return;
      }
      if w.fileThere(i) {
        if !o.overwrite {
          Land(m, Rejected, 204);
          return;
        }
        if w.unwanted(i).Some? {
          Land(m, Rejected, w.unwanted(i).value);
          return;
        }
      }
      if m.content {
        if w.inline(i) {
          Land(m, Ok, 201);
          return;
        }
      }
      var ok := NotYet;
      var a := 1;
      while a <= o.attempts
        invariant a >= 1 && View() == old(View()) && ok == NotYet
        invariant FetchFrom(o, w, i, 1) == FetchFrom(o, w, i, a)
        decreases o.attempts - a
      {
        ok := w.fetch(i, a);
        if ok == Done {
          Land(m, Ok, 201);
          break;
        } else if ok == Gone {
          Land(m, Rejected, 410);
          break;
        }
        a := a + 1;
      }
      if ok == NotYet {
        Land(m, Failed, 0);
      }
    }

    method DownloadOne(m: Message, i: nat, w: World)
      modifies worklist, `dropped
      ensures View() == PutAll(old(View()), Entries(m, Landings(m, o, w, i)))
    {
      PutLandings(View(), m, Landings(m, o, w, i));
      hide PutAll, Put, Worklist.Transfer;
      if m.newname {
        Land(m, Ok, 0);
        return;
      }
      if !m.newDir {
        Land(m, Rejected, 422);
        return;
      }
      if !w.dirThere(i) {
        if m.fileOp.Some? && m.fileOp.value.remove {
          Land(m, Rejected, 422);
          return;
        }
        if !w.makeDirs(i) {
          Land(m, Rejected, 422);
          return;
        }
      }
      if !w.enter(i) {
        Land(m, Failed, 0);
        return;
      }
      if m.fileOp.Some? {
        var finished := DoFileOp(m, i, w);
        if finished {
          return;
        }
      }
      Transfer(m, i, w);
    }

    method DoDownload(w: World)
      requires o.download
      modifies worklist, `dropped
      ensures View() == PutAll(old(View().(incoming := [])), DownloadAll(old(worklist.incoming), o, w))
    {
      hide PutAll, DownloadAll, Landings;
      var ms := worklist.incoming;
      worklist.incoming := [];
      ghost var start := View();
      PutNone(start, ms, o, w);
      for i := 0 to |ms|
        invariant View() == PutAll(start, DownloadAll(ms[..i], o, w))
      {
        PutConcat(start, DownloadAll(ms[..i], o, w), Entries(ms[i], Landings(ms[i], o, w, i)));
        DownloadTake(ms, i, o, w);
        DownloadOne(ms[i], i, w);
      }
      assert ms[..|ms|] == ms;
    }

    method SendOne(m: Message, i: nat, w: World) returns (sends: int)
      requires o.attempts >= 1
      modifies worklist, `dropped
      ensures View() == Put(old(View()), Landed(m, Sending(m, o, w, i)))
      ensures sends == if BeforeSend(m, o).Some? then 0 else SendsFrom(o, w, i, 1)
    {
      sends := 0;
      if !m.newDir {
        Land(m, Rejected, 422);
        return;
      }
      if !m.newFile {
        Land(m, Rejected, 422);
        return;
      }
      if m.size.Some? && o.fileSizeMax > 0 && m.size.value > o.fileSizeMax {
        Land(m, Rejected, 413);
        return;
      }
      if m.fileOp.Some? {
        var f := m.fileOp.value;
        if f.directory && f.remove && Rmdir !in o.events {
          Land(m, Rejected, 202);
          return;
        } else if f.remove && Delete !in o.events {
          Land(m, Rejected, 202);
          return;
        }
        if f.directory && Mkdir !in o.events {
          Land(m, Rejected, 202);
          return;
        }
        if f.hlink && Link !in o.events {
          Land(m, Rejected, 202);
          return;
        }
        if f.link && Link !in o.events {
          Land(m, Rejected, 202);
          return;
        }
      }
      var answer := 0;
      var a := 1;
      while a <= o.attempts
        invariant 1 <= a <= o.attempts + 1 && View() == old(View()) && sends == a - 1
        invariant a <= o.attempts ==> SendsFrom(o, w, i, 1) == SendsFrom(o, w, i, a)
        invariant a == o.attempts + 1 ==> SendsFrom(o, w, i, 1) == o.attempts && answer == w.send(i, o.attempts) == 0
        decreases o.attempts - a
      {
        answer := w.send(i, a);
        sends := sends + 1;
        if answer > 0 {
          Land(m, Ok, 0);
          break;
        } else if answer < 0 {
          Land(m, Rejected, 0);
          break;
        }
        a := a + 1;
      }
      if answer == 0 {
        Land(m, Failed, 0);
      }
    }

    /** Sending: never more sends of a message than the attempts allowed. */
    method DoSend(w: World) returns (sends: seq<int>)
      requires o.download && o.attempts >= 1
      modifies worklist, `dropped
      ensures View() == PutAll(old(View().(incoming := [])), SendAll(old(worklist.incoming), o, w))
      ensures |sends| == |old(worklist.incoming)| && forall n | n in sends :: 0 <= n <= o.attempts
    {
      hide PutAll, SendAll, Sending;
      var ms := worklist.incoming;
      worklist.incoming := [];
      sends := [];
      ghost var start := View();
      SendNone(start, ms, o, w);
      for i := 0 to |ms|
        invariant View() == PutAll(start, SendAll(ms[..i], o, w))
        invariant |sends| == i && forall n | n in sends :: 0 <= n <= o.attempts
      {
        PutSnoc(start, SendAll(ms[..i], o, w), Landed(ms[i], Sending(ms[i], o, w, i)));
        SendTake(ms, i, o, w);
        var n := SendOne(ms[i], i, w);
        sends := sends + [n];
      }
      assert ms[..|ms|] == ms;
    }

    method Do(w: World)
      requires CanWork(o)
      modifies worklist, `dropped
      ensures View() == PutAll(old(View().(incoming := [], ok := if o.download then worklist.ok else [])),
                               WorkAll(old(worklist.incoming), o, w))
    {
      if !o.download {
        ghost var s := View();
        PassedAll(s.(incoming := [], ok := []), s.incoming);
        worklist.ok := worklist.incoming;
        worklist.incoming := [];
      } else if o.sender {
        var _ := DoSend(w);
      } else {
        DoDownload(w);
      }
    }

    method Work(w: World)
      requires CanWork(o) && retry.o == o
      modifies worklist, retry, consumer, `refused, `dropped
      ensures View() == AfterWork(old(View()), o, w)
    {
      Do(w);
      consumer.Ack(worklist.ok);
      consumer.Ack(worklist.rejected);
      consumer.Ack(worklist.failed);
      ghost var t := View();
      assert t == Worked(old(View()), o, w) by { hide PutAll, WorkAll, AckAll; }
      hide PutAll, WorkAll, AckAll, Worked;
      retry.AfterWork(worklist);
      assert View() == Refilled(RetriedWork(t, o), o);
      consumer.Ack(worklist.rejected);
      refused := refused + worklist.rejected;
      worklist.rejected := [];
      consumer.Ack(worklist.failed);
    }

    /** The publication, where there is a broker to publish to: what could not be published goes to
        the retry queue of its own. */
    method Post(w: World)
      requires retry.o == o
      modifies worklist, retry, `done, `dropped
      ensures View() == AfterPost(old(View()), o, w)
    {
      if o.publishing {
        PublishOk(w);
        hide Published;
        retry.AfterPost(worklist);
      }
      done := done + worklist.ok;
      worklist.ok := [];
      worklist.failed := [];
    }

    method PublishOk(w: World)
      requires o.publishing
      modifies worklist, `dropped
      ensures View() == Published(old(View()), o, w)
    {
      hide PutAll, PublishAll;
      var oldOk := worklist.ok;
      worklist.ok := [];
      ghost var start := View();
      PublishNone(start, oldOk, w);
      for i := 0 to |oldOk|
        invariant View() == PutAll(start, PublishAll(oldOk[..i], w))
      {
        ghost var e := Posted(oldOk[i], w.publish(i));
        PutSnoc(start, PublishAll(oldOk[..i], w), e);
        PublishTake(oldOk, i, w);
        var m := oldOk[i].(posts := oldOk[i].posts + 1);
        if w.publish(i) {
          Enter(Entry(Ok, m));
        } else {
          Enter(Entry(Failed, m));
        }
      }
      assert oldOk[..|oldOk|] == oldOk;
    }

    /** One pass: messages are gathered, filtered, worked on and published. */
    method RunPass(arrived: seq<Message>, qty: int, ws: Worlds)
      requires CanWork(o) && retry.o == o
      modifies worklist, retry, consumer, `done, `refused, `dropped
      ensures View() == Pass(old(View()), arrived, qty, o, ws)
    {
      hide Gathered, AfterFilter, AfterWork, AfterPost;
      Gather(arrived, qty);
      Filter(ws.filter);
      Work(ws.work);
      Post(ws.post);
    }
  }

  ghost function PutOption(s: State, m: Message, l: Option<Landing>): State {
    if l.Some? then Put(s, Landed(m, l.value)) else s
  }

  lemma PutLandings(s: State, m: Message, ls: seq<Landing>)
    ensures ls == [] ==> PutAll(s, Entries(m, ls)) == s
    ensures |ls| == 1 ==> PutAll(s, Entries(m, ls)) == Put(s, Landed(m, ls[0]))
    ensures |ls| == 2 ==> PutAll(s, Entries(m, ls)) == Put(Put(s, Landed(m, ls[0])), Landed(m, ls[1]))
  {
    assert PutAll(s, []) == s;
    hide PutAll, Put;
    if |ls| == 1 {
      assert Entries(m, ls) == [] + [Landed(m, ls[0])];
      PutSnoc(s, [], Landed(m, ls[0]));
    } else if |ls| == 2 {
      assert Entries(m, ls) == [] + [Landed(m, ls[0])] + [Landed(m, ls[1])];
      PutSnoc(s, [], Landed(m, ls[0]));
      PutSnoc(s, [] + [Landed(m, ls[0])], Landed(m, ls[1]));
    }
  }

  lemma PutNone(s: State, ms: seq<Message>, o: Options, w: World)
    ensures PutAll(s, DownloadAll(ms[..0], o, w)) == s
  {
  }

  lemma DownloadTake(ms: seq<Message>, i: nat, o: Options, w: World)
    requires i < |ms|
    ensures DownloadAll(ms[..i + 1], o, w) == DownloadAll(ms[..i], o, w) + Entries(ms[i], Landings(ms[i], o, w, i))
  {
    assert ms[..i + 1][..i] == ms[..i];
    hide Landings;
  }

  lemma SendNone(s: State, ms: seq<Message>, o: Options, w: World)
    requires o.attempts >= 1
    ensures PutAll(s, SendAll(ms[..0], o, w)) == s
  {
  }

  lemma SendTake(ms: seq<Message>, i: nat, o: Options, w: World)
    requires i < |ms| && o.attempts >= 1
    ensures SendAll(ms[..i + 1], o, w) == SendAll(ms[..i], o, w) + [Landed(ms[i], Sending(ms[i], o, w, i))]
  {
    assert ms[..i + 1][..i] == ms[..i];
  }

  lemma PublishNone(s: State, ms: seq<Message>, w: World)
    ensures PutAll(s, PublishAll(ms[..0], w)) == s
  {
  }

  lemma PublishTake(ms: seq<Message>, i: nat, w: World)
    requires i < |ms|
    ensures PublishAll(ms[..i + 1], w)
         == PublishAll(ms[..i], w) + [Posted(ms[i], w.publish(i))]
  {
    assert ms[..i + 1][..i] == ms[..i];
  }

  lemma {:induction false} PassedAll(s: State, ms: seq<Message>)
    ensures PutAll(s, PassAll(ms)) == s.(ok := s.ok + ms)
  {
    if ms != [] {
      var n := |ms| - 1;
      PassedAll(s, ms[..n]);
      PutSnoc(s, PassAll(ms[..n]), Entry(Ok, ms[n]));
      hide PutAll;
      assert ms == ms[..n] + [ms[n]];
    }
  }

  lemma FilterTake(ms: seq<Message>, i: nat, o: Options, w: World)
    requires i < |ms|
    ensures FilterAll(ms[..i + 1], o, w) == FilterAll(ms[..i], o, w) + [FilterOne(ms[i], o, w, i)]
  {
    assert ms[..i + 1][..i] == ms[..i];
  }
}
