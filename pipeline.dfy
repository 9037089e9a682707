/**
 * The page wired to its five routes: each stage's `fetch` reaches the route handler,
 * `response.ok` is a 2xx reply and the page reads one field of the body. Over these
 * services the run's verdict depends only on the text provider and the sheet store:
 * every other stage answers ok with a usable locator whatever its provider does.
 */
module Pipeline {
  import opened Wrappers
  import opened Web
  import opened Replicate
  import opened GenerateRhyme
  import opened LogToSheet
  import opened GenerateAudio
  import opened GenerateVideo
  import opened UploadYoutube
  import opened Workflow

  /**
   * What lies behind the routes: the providers, the sheet store and the upload route's
   * re-read of its body. The store may answer each sheet log differently: it gives
   * every request its own answer, and the two sheet logs of a run always differ (only
   * the final one has a status), so any answer to each of them can be expressed.
   */
  datatype Providers = Providers(chat: ChatInput -> ChatOutcome,
                                 sheets: SheetRequest -> Backend,
                                 music: MusicInput -> RunOutcome,
                                 animate: VideoInput -> RunOutcome,
                                 youtube: UploadInput -> UploadOutcome,
                                 reread: ReRead)

  /** `response.ok` and the one body field the page reads (`data.error` on a reply that is not ok). */
  function Deliver<T>(r: Reply<T>, field: T -> Option<string>): (o: Outcome)
    // a route's reply never makes the page's `fetch` reject, and it is ok exactly when it is a 2xx reply
    ensures !o.Threw? && (o.Ok? <==> r.Json?)
    ensures r.Json? ==> o == Ok(field(r.body))
    // a non-2xx reply always carries its error message to the page
    ensures r.ErrorJson? ==> o == NotOk(Some(r.error))
  {
    match r
    case Json(body) => Ok(field(body))
    case ErrorJson(_, e) => NotOk(Some(e))
  }

  /** The sheet route's reply does not depend on what the table holds. */
  lemma SheetReplyIgnoresTable(rows: seq<Row>, other: seq<Row>, req: SheetRequest, b: Backend)
    ensures Respond(rows, req, b).0 == Respond(other, req, b).0
  {
  }

  /** The five stages as the page reaches them through the routes. */
  function Wired(p: Providers): (svc: Services)
    // the page's catch block only ever sees a reply that is not ok, never a rejected fetch
    ensures forall r :: !svc.rhyme(r).Threw?
    ensures forall r :: !svc.sheet(r).Threw?
    ensures forall r :: !svc.audio(r).Threw?
    ensures forall r :: !svc.video(r).Threw?
    ensures forall r :: !svc.upload(r).Threw?
  {
    var svc := Services(r => Deliver(GenerateRhyme.Post(r, p.chat).reply, (b: RhymeBody) => Some(b.rhyme)),
                        r => Deliver(Respond([], r, p.sheets(r)).0, (b: SheetBody) => None),
                        r => Deliver(GenerateAudio.Post(r, p.music).reply, (b: AudioBody) => Some(b.audioUrl)),
                        r => Deliver(GenerateVideo.Post(r, p.animate).reply, (b: VideoBody) => Some(b.videoUrl)),
                        r => Deliver(UploadYoutube.Post(r, p.youtube, p.reread).reply,
                                     (b: UploadBody) => Some(b.youtubeUrl)));
    assert forall r :: svc.sheet(r) == Deliver(Respond([], r, p.sheets(r)).0, (b: SheetBody) => None);
    svc
  }

  /** The rhyme the text route answers with when the provider produced a first choice. */
  function RhymeOf(o: ChatOutcome): (r: Option<string>)
    requires Produced(o)
    // the first choice's content, never empty
    ensures Truthy(r)
    ensures Truthy(o.contents[0]) ==> r == o.contents[0]
  {
    Some(OrElse(o.contents[0], NoRhyme))
  }

  /** The first sheet log of a run whose text provider produced a first choice. */
  function FirstLog(id: string, topic: string, timestamp: string, o: ChatOutcome): SheetRequest
    requires Produced(o)
  {
    SheetRequest(id, topic, RhymeOf(o), timestamp, None, None, None, None)
  }

  /** The first log's row holds the run's identity and rhyme, no media, and reads 'in-progress'. */
  lemma FirstLogRow(id: string, topic: string, timestamp: string, o: ChatOutcome)
    requires Produced(o)
    ensures RowOf(FirstLog(id, topic, timestamp, o)) == [id, timestamp, topic, RhymeOf(o).value, "", "", "", InProgress]
  {
  }

  /**
   * The text stage never rejects; it is ok exactly when the topic is non-empty and the
   * provider produced a first choice, and then carries that choice's (non-empty) rhyme.
   */
  ghost predicate RhymeRoute(svc: Services, chat: ChatInput -> ChatOutcome) {
    forall r: RhymeRequest :: && !svc.rhyme(r).Threw?
                              && (svc.rhyme(r).Ok? <==> Truthy(r.topic) && Produced(chat(Ask(r.topic.value))))
                              && (svc.rhyme(r).Ok? ==>
                                    svc.rhyme(r).artifact == RhymeOf(chat(Ask(r.topic.value)))
                                    && Truthy(svc.rhyme(r).artifact))
  }

  /** The sheet stage never rejects; it is ok exactly when the store answers that request. */
  ghost predicate SheetRoute(svc: Services, store: SheetRequest -> Backend) {
    forall r: SheetRequest :: !svc.sheet(r).Threw? && (svc.sheet(r).Ok? <==> Healthy(store(r)))
  }

  /** The other three stages never reject, and are ok with a non-empty locator whenever their inputs are present. */
  ghost predicate MediaRoutes(svc: Services) {
    && (forall r: AudioRequest :: !svc.audio(r).Threw? && (Truthy(r.text) ==> svc.audio(r).Ok? && Truthy(svc.audio(r).artifact)))
    && (forall r: VideoRequest :: !svc.video(r).Threw? &&
          (Truthy(r.audioUrl) && Truthy(r.rhymeText) ==> svc.video(r).Ok? && Truthy(svc.video(r).artifact)))
    && (forall r: UploadRequest :: !svc.upload(r).Threw? &&
          (Truthy(r.videoUrl) && Truthy(r.title) ==> svc.upload(r).Ok? && Truthy(svc.upload(r).artifact)))
  }

  /** A failing provider behind a media stage makes it answer with its demo locator. */
  ghost predicate Fallbacks(svc: Services, p: Providers) {
    && (forall r: AudioRequest :: Truthy(r.text) && p.music(MusicInput(Prompt(r.text.value))).RunError? ==>
          svc.audio(r) == Ok(Some(DemoAudioUrl)))
    && (forall r: VideoRequest ::
          Truthy(r.audioUrl) && Truthy(r.rhymeText) && p.animate(VideoInput(Render(r.topic))).RunError? ==>
          svc.video(r) == Ok(Some(DemoVideoUrl)))
    && (forall r: UploadRequest ::
          Truthy(r.videoUrl) && Truthy(r.title) && p.youtube(Metadata(r.videoUrl.value, r.title.value, r.description)).UploadError? ==>
          svc.upload(r) == Ok(Some(DemoWatchPrefix + Render(FallbackId(p.reread)))))
  }

  /** What the page can observe of the routes over the providers `p`. */
  ghost predicate Routes(svc: Services, p: Providers) {
    RhymeRoute(svc, p.chat) && SheetRoute(svc, p.sheets) && MediaRoutes(svc) && Fallbacks(svc, p)
  }

  /** The page wired to the routes observes exactly that. */
  lemma WiredRoutes(p: Providers)
    ensures Routes(Wired(p), p)
  {
    var svc := Wired(p);
    forall r: SheetRequest ensures !svc.sheet(r).Threw? && (svc.sheet(r).Ok? <==> Healthy(p.sheets(r))) {
      assert svc.sheet(r) == Deliver(Respond([], r, p.sheets(r)).0, (b: SheetBody) => None);
    }
  }

  /** Over the routes, a run can only stop at the rhyme or at the first sheet log. */
  lemma RoutedStops(topic: string, id: string, timestamp: string, svc: Services, chat: ChatInput -> ChatOutcome)
    requires RhymeRoute(svc, chat) && MediaRoutes(svc)
    ensures var n := |Run(topic, id, timestamp, svc).sent|;
      n <= 2 || n == Requests
  {
    var t := Run(topic, id, timestamp, svc);
    var s := t.sent;
    var n := |s|;
    RunStopsOnFailure(topic, id, timestamp, svc);
    RunRequests(topic, id, timestamp, svc);
    RunGate(topic, id, timestamp, svc);
    // past the first sheet log every stage gets its inputs and answers ok
    if n > 2 {
      assert Truthy(Art(Answer(svc, s[0])));
      assert Answer(svc, s[2]).Ok? && Truthy(Art(Answer(svc, s[2])));
      if n > 3 {
        assert Answer(svc, s[3]).Ok? && Truthy(Art(Answer(svc, s[3])));
      }
      if n > 4 {
        assert Answer(svc, s[4]).Ok?;
      }
    }
  }

  /**
   * Which providers decide a run: it completes exactly when the topic is non-empty,
   * the text provider produced a first choice and the sheet store answers the first
   * log, whatever it answers the final one; a completed entry has all four artifacts
   * set and no error.
   */
  lemma RoutedVerdict(topic: string, id: string, timestamp: string, svc: Services, p: Providers)
    requires RhymeRoute(svc, p.chat) && SheetRoute(svc, p.sheets) && MediaRoutes(svc)
    ensures var f := FinalEntry(topic, id, timestamp, svc);
      var c := p.chat(Ask(topic));
      && (f.status == Completed <==> topic != "" && Produced(c) && Healthy(p.sheets(FirstLog(id, topic, timestamp, c))))
      && (f.status == Completed ==>
            f.error == None && Truthy(f.rhymeText) && Truthy(f.audioUrl) && Truthy(f.videoUrl) && Truthy(f.youtubeUrl))
  {
    var t := Run(topic, id, timestamp, svc);
    var s := t.sent;
    var f := FinalEntry(topic, id, timestamp, svc);
    RunVerdict(topic, id, timestamp, svc);
    RunRequests(topic, id, timestamp, svc);
    RunGate(topic, id, timestamp, svc);
    RoutedStops(topic, id, timestamp, svc, p.chat);
    if f.status == Completed {
      CompletedArtifacts(topic, id, timestamp, svc);
    }
  }

  /**
   * When every generator and the upload fail, a run with a rhyme and a working sheet
   * still completes, with the demo track, the demo clip and the `demo_` watch URL.
   */
  lemma AllFallbacks(topic: string, id: string, timestamp: string, svc: Services, p: Providers)
    requires Routes(svc, p)
    requires topic != "" && Produced(p.chat(Ask(topic)))
    requires Healthy(p.sheets(FirstLog(id, topic, timestamp, p.chat(Ask(topic)))))
    requires forall m :: p.music(m).RunError?
    requires forall v :: p.animate(v).RunError?
    requires forall u :: p.youtube(u).UploadError?
    ensures var f := FinalEntry(topic, id, timestamp, svc);
      && f.status == Completed
      && f.audioUrl == Some(DemoAudioUrl) && f.videoUrl == Some(DemoVideoUrl)
      && f.youtubeUrl == Some(DemoWatchPrefix + Render(FallbackId(p.reread)))
  {
    RoutedVerdict(topic, id, timestamp, svc, p);
    RunRequests(topic, id, timestamp, svc);
    CompletedArtifacts(topic, id, timestamp, svc);
  }

  // ---------------------------------------------------------------------------
  // The table behind the sheet route

  /** The table after the sheet route has handled the sheet requests among `cs`, in order. */
  function SheetTable(rows: seq<Row>, cs: seq<Call>, store: SheetRequest -> Backend): (r: seq<Row>)
    // the route never removes a row and adds at most one per request
    ensures |rows| <= |r| <= |rows| + |cs|
    decreases |cs|
  {
    if |cs| == 0 then rows
    else
      var next := if cs[0].SheetCall? then Respond(rows, cs[0].sheetReq, store(cs[0].sheetReq)).1 else rows;
      SheetTable(next, cs[1..], store)
  }

  /** A run cut short at the text stage, or at a first sheet log the store refused, leaves the table alone. */
  lemma ShortRunTable(rows: seq<Row>, cs: seq<Call>, store: SheetRequest -> Backend)
    requires 1 <= |cs| <= 2 && !cs[0].SheetCall?
    requires |cs| == 2 ==> cs[1].SheetCall? ==> !Healthy(store(cs[1].sheetReq))
    ensures SheetTable(rows, cs, store) == rows
  {
    assert SheetTable(rows, cs, store) == SheetTable(rows, cs[1..], store);
    if |cs| == 2 {
      assert cs[1..][1..] == [];
    }
  }

  /**
   * A full run's two sheet logs for an id the table does not hold, around four other
   * requests, the first one answered, leave one row for the id after the others: the
   * final log's cells when the store answers it too, and the first log's otherwise.
   */
  lemma FullRunTable(rows: seq<Row>, cs: seq<Call>, store: SheetRequest -> Backend)
    requires |cs| == Requests
    requires cs[1].SheetCall? && cs[5].SheetCall? && cs[1].sheetReq.workflowId == cs[5].sheetReq.workflowId
    requires !cs[0].SheetCall? && !cs[2].SheetCall? && !cs[3].SheetCall? && !cs[4].SheetCall?
    requires Healthy(store(cs[1].sheetReq))
    requires forall j :: 0 <= j < |rows| ==> Key(rows[j]) != Some(cs[1].sheetReq.workflowId)
    ensures var kept := if Healthy(store(cs[5].sheetReq)) then cs[5].sheetReq else cs[1].sheetReq;
      SheetTable(rows, cs, store) == rows + [RowOf(kept)]
    ensures var after := SheetTable(rows, cs, store);
      forall j :: 0 <= j < |after| && Key(after[j]) == Some(cs[1].sheetReq.workflowId) ==> j == |rows|
  {
    var first := RowOf(cs[1].sheetReq);
    var last := RowOf(cs[5].sheetReq);
    var once := Upserted(rows, first);
    assert FindIndex(ColumnA(rows), first[0]) < 0;
    assert once == rows + [first];
    assert SheetTable(rows, cs, store) == SheetTable(once, cs[2..], store) by {
      assert cs[1..][1..] == cs[2..];
    }
    assert SheetTable(once, cs[2..], store) == SheetTable(once, cs[3..], store) by {
      assert cs[2..][1..] == cs[3..];
    }
    assert SheetTable(once, cs[3..], store) == SheetTable(once, cs[4..], store) by {
      assert cs[3..][1..] == cs[4..];
    }
    assert SheetTable(once, cs[4..], store) == SheetTable(once, cs[5..], store) by {
      assert cs[4..][1..] == cs[5..];
    }
    assert SheetTable(once, cs[5..], store) == Respond(once, cs[5].sheetReq, store(cs[5].sheetReq)).1 by {
      assert cs[5..][1..] == [];
    }
    if Healthy(store(cs[5].sheetReq)) {
      TwoUpserts(rows, first, last);
    }
  }

  /**
   * Through a run whose sheet service answers as the route does over the store and
   * that stops only at the first two requests, a completed run leaves exactly one row
   * for the workflow: the final log's cells when the store answered the final log, and
   * the first log's cells when it refused it. Any other run leaves the table untouched.
   */
  lemma RunTable(topic: string, id: string, timestamp: string, svc: Services, store: SheetRequest -> Backend,
                 rows: seq<Row>)
    requires SheetRoute(svc, store)
    requires var n := |Run(topic, id, timestamp, svc).sent|; n <= 2 || n == Requests
    requires forall j :: 0 <= j < |rows| ==> Key(rows[j]) != Some(id)
    ensures var t := Run(topic, id, timestamp, svc);
      var f := FinalEntry(topic, id, timestamp, svc);
      var after := SheetTable(rows, t.sent, store);
      var first := SheetRequest(id, topic, f.rhymeText, timestamp, None, None, None, None);
      var final := SheetRequest(id, topic, f.rhymeText, timestamp, f.audioUrl, f.videoUrl, f.youtubeUrl,
                                Some(SheetCompleted));
      && (f.status == Completed ==>
            && after == rows + [RowOf(if Healthy(store(final)) then final else first)]
            && forall j :: 0 <= j < |after| && Key(after[j]) == Some(id) ==> j == |rows|)
      && (f.status != Completed ==> after == rows)
  {
    var t := Run(topic, id, timestamp, svc);
    var s := t.sent;
    var f := FinalEntry(topic, id, timestamp, svc);
    RunOrder(topic, id, timestamp, svc);
    RunRequests(topic, id, timestamp, svc);
    RunVerdict(topic, id, timestamp, svc);
    if f.status == Completed {
      FinalSnapshotMatchesEntry(topic, id, timestamp, svc);
      CompletedArtifacts(topic, id, timestamp, svc);
      RunGate(topic, id, timestamp, svc);
      FullRunTable(rows, s, store);
    } else {
      ShortRunTable(rows, s, store);
    }
  }
}
