/** The Slack event endpoint: the signature gate in front of the handler, and
    the registry of active trackers, keyed by sharing URL, that the handler
    keeps up to date as `roo.it` links are shared. */
module App {
  import opened Wrappers
  import Slack
  import Tracking

  /** A shared link of a `link_shared` event. */
  datatype Link = Link(domain: string, url: string)

  /** The `event` of an event callback: its type, channel and links. */
  datatype Event = Event(kind: string, channel: string, links: seq<Link>)

  /** A decoded event-API payload. */
  datatype Payload = UrlVerification(challenge: string) | EventCallback(teamId: string, event: Event)

  /** A coroutine the handler schedules (`asyncio.ensure_future`) rather than awaits. */
  datatype Task = RunTracker(tracker: Tracking.Tracker) | AddChannel(tracker: Tracking.Tracker, chan: Slack.Channel)

  /** Why the handler raised (the server then answers with an error). */
  datatype Failure =
    | PageUnreachable(url: string)
    | NoTrackingUrl(url: string, error: Tracking.UrlError)
    | TimestampNotInteger

  const TrackedDomain: string := "roo.it"

  /** The URLs of the `roo.it` links, in order. */
  function RooUrls(links: seq<Link>): (urls: seq<string>)
    ensures |urls| <= |links|
    decreases |links|
  {
    if links == [] then []
    else
      var last := links[|links| - 1];
      RooUrls(links[..|links| - 1]) + (if last.domain == TrackedDomain then [last.url] else [])
  }

  /** Each URL of `RooUrls` is that of a `roo.it` link, and every `roo.it` link's URL is there. */
  lemma {:induction false} RooUrlsSound(links: seq<Link>)
    ensures forall u :: u in RooUrls(links) <==> exists i :: 0 <= i < |links| && links[i].domain == TrackedDomain && links[i].url == u
    decreases |links|
  {
    if links != [] {
      var init := links[..|links| - 1];
      RooUrlsSound(init);
      forall i | 0 <= i < |init| ensures init[i] == links[i] { }
    }
  }

  lemma {:induction false} RooUrlsAppend(a: seq<Link>, b: seq<Link>)
    ensures RooUrls(a + b) == RooUrls(a) + RooUrls(b)
    decreases |b|
  {
    if b == [] {
      assert a + b == a;
    } else {
      var init := b[..|b| - 1];
      assert (a + b)[..|a + b| - 1] == a + init;
      RooUrlsAppend(a, init);
    }
  }

  /** The URLs of a prefix of the links are a prefix of the URLs. */
  lemma RooUrlsPrefix(links: seq<Link>, i: nat)
    requires i <= |links|
    ensures |RooUrls(links[..i])| <= |RooUrls(links)|
    ensures RooUrls(links[..i]) == RooUrls(links)[..|RooUrls(links[..i])|]
  {
    assert links == links[..i] + links[i..];
    RooUrlsAppend(links[..i], links[i..]);
  }

  /** Walking the links one by one: link `i` adds its URL when it is a `roo.it` one. */
  lemma RooUrlsNext(links: seq<Link>, i: nat)
    requires i < |links|
    ensures RooUrls(links[..i + 1]) == RooUrls(links[..i]) + (if links[i].domain == TrackedDomain then [links[i].url] else [])
  {
    assert links[..i + 1][..i] == links[..i];
  }

  /** The URL of a `roo.it` link `i` comes right after those of the links before it. */
  lemma RooUrlsAt(links: seq<Link>, i: nat)
    requires i < |links| && links[i].domain == TrackedDomain
    ensures var done := RooUrls(links[..i]);
      && |done| < |RooUrls(links)| && done == RooUrls(links)[..|done|] && RooUrls(links)[|done|] == links[i].url
  {
    RooUrlsNext(links, i);
    RooUrlsPrefix(links, i + 1);
    var done := RooUrls(links[..i]);
    assert RooUrls(links[..i + 1]) == done + [links[i].url];
    assert RooUrls(links)[|done|] == RooUrls(links[..i + 1])[|done|];
  }

  /** The URLs an event makes the handler look at. */
  function SharedUrls(e: Event): (urls: seq<string>)
    ensures e.kind == "link_shared" ==> urls == RooUrls(e.links)
    ensures e.kind != "link_shared" ==> urls == []
    ensures |urls| <= |e.links|
  {
    if e.kind == "link_shared" then RooUrls(e.links) else []
  }

  /** The tracking URL a new tracker for `url` gets. The replaying tracker
      loads no page; the real one loads the page the link redirects to
      (`pages`; a URL with no page is a failed request). */
  function NewTrackingUrl(mock: bool, url: string, pages: map<string, Tracking.FrontendPage>): (r: Result<string, Failure>)
    ensures mock ==> r == Ok(Tracking.MockTrackingUrl)
    ensures !mock && url !in pages ==> r == Err(PageUnreachable(url))
    ensures !mock && url in pages ==>
      (r.Ok? <==> Tracking.TrackingUrl(pages[url]).Ok?)
      && (r.Ok? ==> r.value == Tracking.TrackingUrl(pages[url]).value)
      && (r.Err? ==> r.error == NoTrackingUrl(url, Tracking.TrackingUrl(pages[url]).error))
  {
    if mock then Ok(Tracking.MockTrackingUrl)
    else if url !in pages then Err(PageUnreachable(url))
    else match Tracking.TrackingUrl(pages[url])
      case Err(e) => Err(NoTrackingUrl(url, e))
      case Ok(u) => Ok(u)
  }

  /** A tracker just created for a link shared in channel `channelId` of team `teamId`. */
  predicate Started(t: Tracking.Tracker, teamId: string, channelId: string, trackingUrl: string, responses: map<string, seq<Tracking.OrderStatus>>)
    reads t
  {
    && |t.channels| == 1 && t.channels[0].teamId == teamId && t.channels[0].channelId == channelId
    && t.trackingUrl == trackingUrl && !t.completed && t.currentState == None
    && t.backlog == Tracking.Statuses(responses, trackingUrl) && t.outbox == []
  }

  /** The registry `after` and the scheduled `tasks` once the handler has
      gone through the URLs `done`, starting from the registry `before`, for
      links shared in channel `channelId` of team `teamId`. */
  ghost predicate Processed(before: map<string, Tracking.Tracker>, after: map<string, Tracking.Tracker>,
                            done: seq<string>, tasks: seq<Task>, teamId: string, channelId: string,
                            mock: bool, pages: map<string, Tracking.FrontendPage>, responses: map<string, seq<Tracking.OrderStatus>>)
    reads after.Values
  {
    && Registered(before, after, done)
    && Scheduled(before, after, done, tasks, teamId, channelId)
    && AllStarted(before, after, teamId, channelId, mock, pages, responses)
    && DistinctNew(before, after)
  }

  /** Entries are only added, exactly one under each URL handled. */
  ghost predicate Registered(before: map<string, Tracking.Tracker>, after: map<string, Tracking.Tracker>, done: seq<string>) {
    && (forall u :: u in after <==> u in before || u in done)
    && (forall u :: u in before ==> after[u] == before[u])
  }

  /** Every URL handled gets one task, on the tracker registered under it:
      adding the channel when the URL was already tracked, running the new
      tracker otherwise. */
  ghost predicate Scheduled(before: map<string, Tracking.Tracker>, after: map<string, Tracking.Tracker>,
                      done: seq<string>, tasks: seq<Task>, teamId: string, channelId: string) {
    && |tasks| == |done|
    && (forall k :: 0 <= k < |done| ==> done[k] in after && tasks[k].tracker == after[done[k]])
    && (forall k :: 0 <= k < |done| ==> (tasks[k].AddChannel? <==> done[k] in before || done[k] in done[..k]))
    && (forall k :: 0 <= k < |done| && tasks[k].AddChannel? ==>
          tasks[k].chan.teamId == teamId && tasks[k].chan.channelId == channelId)
  }

  /** Each new entry is a tracker just started for its URL. */
  ghost predicate AllStarted(before: map<string, Tracking.Tracker>, after: map<string, Tracking.Tracker>,
                             teamId: string, channelId: string,
                             mock: bool, pages: map<string, Tracking.FrontendPage>, responses: map<string, seq<Tracking.OrderStatus>>)
    reads after.Values
  {
    forall u :: u in after && u !in before ==> StartedFor(after[u], u, teamId, channelId, mock, pages, responses)
  }

  ghost predicate StartedFor(t: Tracking.Tracker, url: string, teamId: string, channelId: string,
                             mock: bool, pages: map<string, Tracking.FrontendPage>, responses: map<string, seq<Tracking.OrderStatus>>)
    reads t
  {
    NewTrackingUrl(mock, url, pages).Ok? && Started(t, teamId, channelId, NewTrackingUrl(mock, url, pages).value, responses)
  }

  /** Each new entry holds a tracker no other entry holds, old or new. */
  ghost predicate DistinctNew(before: map<string, Tracking.Tracker>, after: map<string, Tracking.Tracker>) {
    forall u, v :: u in after && v in after && u !in before && u != v ==> after[u] != after[v]
  }

  /** Handling one more URL schedules one more task. */
  lemma ScheduledStep(before: map<string, Tracking.Tracker>, after: map<string, Tracking.Tracker>,
                      done: seq<string>, tasks: seq<Task>, teamId: string, channelId: string,
                      after': map<string, Tracking.Tracker>, url: string, task: Task)
    requires Scheduled(before, after, done, tasks, teamId, channelId)
    requires forall u :: u in after ==> u in after' && after'[u] == after[u]
    requires url in after' && task.tracker == after'[url]
    requires task.AddChannel? <==> url in before || url in done
    requires task.AddChannel? ==> task.chan.teamId == teamId && task.chan.channelId == channelId
    ensures Scheduled(before, after', done + [url], tasks + [task], teamId, channelId)
  {
    var done', tasks' := done + [url], tasks + [task];
    assert done'[..|done|] == done;
    forall k | 0 <= k < |done'|
      ensures tasks'[k].AddChannel? <==> done'[k] in before || done'[k] in done'[..k]
    {
      if k < |done| {
        assert done'[..k] == done[..k];
      }
    }
  }

  /** Handling a URL already tracked extends what was processed. */
  lemma ProcessedKnown(before: map<string, Tracking.Tracker>, after: map<string, Tracking.Tracker>,
                       done: seq<string>, tasks: seq<Task>, teamId: string, channelId: string,
                       mock: bool, pages: map<string, Tracking.FrontendPage>, responses: map<string, seq<Tracking.OrderStatus>>,
                       url: string, task: Task)
    requires Processed(before, after, done, tasks, teamId, channelId, mock, pages, responses)
    requires url in after && task.AddChannel? && task.tracker == after[url]
    requires task.chan.teamId == teamId && task.chan.channelId == channelId
    ensures Processed(before, after, done + [url], tasks + [task], teamId, channelId, mock, pages, responses)
  {
    ScheduledStep(before, after, done, tasks, teamId, channelId, after, url, task);
  }

  /** A tracker registered under an untracked URL keeps every other new entry started. */
  lemma AllStartedStep(before: map<string, Tracking.Tracker>, after: map<string, Tracking.Tracker>,
                       teamId: string, channelId: string,
                       mock: bool, pages: map<string, Tracking.FrontendPage>, responses: map<string, seq<Tracking.OrderStatus>>,
                       url: string, t: Tracking.Tracker)
    requires AllStarted(before, after, teamId, channelId, mock, pages, responses)
    requires StartedFor(t, url, teamId, channelId, mock, pages, responses)
    ensures AllStarted(before, after[url := t], teamId, channelId, mock, pages, responses)
  {
    var after' := after[url := t];
    forall u | u in after' && u !in before
      ensures StartedFor(after'[u], u, teamId, channelId, mock, pages, responses)
    {
      if u != url {
        assert after'[u] == after[u];
      }
    }
  }

  /** Registering a new tracker for an untracked URL extends what was processed. */
  lemma ProcessedNew(before: map<string, Tracking.Tracker>, after: map<string, Tracking.Tracker>,
                     done: seq<string>, tasks: seq<Task>, teamId: string, channelId: string,
                     mock: bool, pages: map<string, Tracking.FrontendPage>, responses: map<string, seq<Tracking.OrderStatus>>,
                     url: string, t: Tracking.Tracker)
    requires Processed(before, after, done, tasks, teamId, channelId, mock, pages, responses)
    requires url !in after && forall u :: u in after ==> after[u] != t
    requires StartedFor(t, url, teamId, channelId, mock, pages, responses)
    ensures Processed(before, after[url := t], done + [url], tasks + [RunTracker(t)], teamId, channelId, mock, pages, responses)
  {
    var after' := after[url := t];
    ScheduledStep(before, after, done, tasks, teamId, channelId, after', url, RunTracker(t));
    AllStartedStep(before, after, teamId, channelId, mock, pages, responses, url, t);
    RegisteredNew(before, after, done, url, t);
    DistinctNewStep(before, after, url, t);
  }

  lemma RegisteredNew(before: map<string, Tracking.Tracker>, after: map<string, Tracking.Tracker>, done: seq<string>,
                      url: string, t: Tracking.Tracker)
    requires Registered(before, after, done) && url !in after
    ensures Registered(before, after[url := t], done + [url])
  {
    var after' := after[url := t];
    forall u ensures u in after' <==> u in before || u in done + [url] {
      assert u in done + [url] <==> u in done || u == url;
    }
    forall u | u in before ensures after'[u] == before[u] {
      assert u != url;
    }
  }

  lemma DistinctNewStep(before: map<string, Tracking.Tracker>, after: map<string, Tracking.Tracker>,
                        url: string, t: Tracking.Tracker)
    requires DistinctNew(before, after) && url !in after && forall u :: u in after ==> after[u] != t
    ensures DistinctNew(before, after[url := t])
  {
    var after' := after[url := t];
    forall u, v | u in after' && v in after' && u !in before && u != v
      ensures after'[u] != after'[v]
    {
      if u != url && v != url {
        assert after'[u] == after[u] && after'[v] == after[v];
      }
    }
  }

  /** The module-level state of the app: `active_trackers`, and the choice of
      tracker (the replaying one, which `mock` selects, or the real one).
      Every new tracker fetches the statuses `responses` holds for its
      tracking URL. */
  class Registry {
    var activeTrackers: map<string, Tracking.Tracker>
    const mock: bool
    const responses: map<string, seq<Tracking.OrderStatus>>

    constructor (mock: bool, responses: map<string, seq<Tracking.OrderStatus>>)
      ensures activeTrackers == map[] && this.mock == mock && this.responses == responses
    {
      activeTrackers := map[];
      this.mock := mock;
      this.responses := responses;
    }

    /** The handling of one `roo.it` link: a known URL gets the channel added
        to its tracker; an unknown one gets a new tracker, registered under the
        URL and started. */
    method TrackLink(url: string, teamId: string, channelId: string, pages: map<string, Tracking.FrontendPage>)
      returns (r: Result<Task, Failure>)
      modifies this
      ensures url in old(activeTrackers) ==>
        && activeTrackers == old(activeTrackers) && r.Ok? && r.value.AddChannel?
        && r.value.tracker == activeTrackers[url]
        && r.value.chan.teamId == teamId && r.value.chan.channelId == channelId
      ensures url !in old(activeTrackers) && r.Err? ==>
        activeTrackers == old(activeTrackers) && NewTrackingUrl(mock, url, pages) == Err(r.error)
      ensures url !in old(activeTrackers) && r.Ok? ==>
        && NewTrackingUrl(mock, url, pages).Ok? && r.value.RunTracker? && fresh(r.value.tracker)
        && activeTrackers == old(activeTrackers)[url := r.value.tracker]
        && StartedFor(r.value.tracker, url, teamId, channelId, mock, pages, responses)
    {
      var chan := new Slack.Channel(teamId, channelId);
      if url in activeTrackers {
        var tracker := activeTrackers[url];
        r := Ok(AddChannel(tracker, chan));
      } else {
        var t: Tracking.Tracker;
        if mock {
          t := Tracking.Tracker.MockFromSharingUrl([chan], responses);
        } else {
          if url !in pages {
            return Err(PageUnreachable(url));
          }
          var made := Tracking.Tracker.FromSharingUrl(pages[url], [chan], responses);
          if made.Err? {
            return Err(NoTrackingUrl(url, made.error));
          }
          t := made.value;
        }
        activeTrackers := activeTrackers[url := t];
        r := Ok(RunTracker(t));
      }
    }

    /** `on_slack_event` behind `verify_signature`: a timestamp header that is
        not an integer raises; a stale or forged request is answered with a 403
        and changes nothing; an accepted one goes to the handler. The payload
        is the decoded body. */
    method OnRequest(now: real, timestampHeader: string, signatureHeader: string, body: string,
                     hmac: (string, string) -> string, key: string,
                     payload: Payload, pages: map<string, Tracking.FrontendPage>)
      returns (r: Result<Slack.HttpResponse, Failure>, tasks: seq<Task>)
      modifies this
      ensures var v := Slack.Verify(now, timestampHeader, signatureHeader, body, hmac, key);
        && (v != Slack.Accept ==> tasks == [] && activeTrackers == old(activeTrackers))
        && (v == Slack.BadTimestamp ==> r == Err(TimestampNotInteger))
        && (v == Slack.Stale || v == Slack.Forged ==> r == Ok(Slack.Rejection(v)))
        && (v == Slack.Accept && payload.UrlVerification? ==>
              r == Ok(Slack.HttpResponse(200, payload.challenge)) && tasks == [] && activeTrackers == old(activeTrackers))
        && (v == Slack.Accept && payload.EventCallback? ==>
              Handled(old(activeTrackers), activeTrackers, payload.teamId, payload.event, pages, r, tasks))
    {
      var v := Slack.Verify(now, timestampHeader, signatureHeader, body, hmac, key);
      if v == Slack.BadTimestamp {
        return Err(TimestampNotInteger), [];
      } else if v != Slack.Accept {
        return Ok(Slack.Rejection(v)), [];
      }
      ghost var urls;
      r, tasks, urls := OnSlackEvent(payload, pages);
    }

    /** `on_slack_event`, past the signature gate. A URL verification is
        answered with its challenge and changes nothing; an event callback is
        handled by `OnEvent`. */
    method OnSlackEvent(payload: Payload, pages: map<string, Tracking.FrontendPage>)
      returns (r: Result<Slack.HttpResponse, Failure>, tasks: seq<Task>, ghost urls: seq<string>)
      modifies this
      ensures payload.UrlVerification? ==>
        r == Ok(Slack.HttpResponse(200, payload.challenge)) && tasks == [] && activeTrackers == old(activeTrackers)
      ensures payload.EventCallback? ==> Handled(old(activeTrackers), activeTrackers, payload.teamId, payload.event, pages, r, tasks)
    {
      if payload.UrlVerification? {
        return Ok(Slack.HttpResponse(200, payload.challenge)), [], [];
      }
      r, tasks, urls := OnEvent(payload.teamId, payload.event, pages);
    }

    /** What handling an event callback does: the URLs of the `roo.it` links
        of a `link_shared` event are handled in order; the first one whose
        tracker cannot be made raises, leaving what was done before it. */
    ghost predicate Handled(before: map<string, Tracking.Tracker>, after: map<string, Tracking.Tracker>,
                            teamId: string, evt: Event, pages: map<string, Tracking.FrontendPage>,
                            r: Result<Slack.HttpResponse, Failure>, tasks: seq<Task>)
      reads this, after.Values
    {
      var urls := SharedUrls(evt);
      && |tasks| <= |urls|
      && Processed(before, after, urls[..|tasks|], tasks, teamId, evt.channel, mock, pages, responses)
      && (r.Ok? <==> |tasks| == |urls|)
      && (r.Ok? ==> r.value == Slack.HttpResponse(200, ""))
      && (r.Err? ==> urls[|tasks|] !in after && NewTrackingUrl(mock, urls[|tasks|], pages) == Err(r.error))
    }

    /** The event-callback part of `on_slack_event`. */
    method OnEvent(teamId: string, evt: Event, pages: map<string, Tracking.FrontendPage>)
      returns (r: Result<Slack.HttpResponse, Failure>, tasks: seq<Task>, ghost urls: seq<string>)
      modifies this
      ensures urls == SharedUrls(evt)
      ensures Handled(old(activeTrackers), activeTrackers, teamId, evt, pages, r, tasks)
    {
      urls := SharedUrls(evt);
      if evt.kind != "link_shared" {
        assert urls[..0] == [];
        return Ok(Slack.HttpResponse(200, "")), [], urls;
      }
      var failure;
      ghost var done;
      failure, tasks, done := ProcessLinks(teamId, evt, pages);
      if failure.Some? {
        HandledFailure(old(activeTrackers), teamId, evt, pages, done, tasks, failure.value);
        return Err(failure.value), tasks, urls;
      }
      assert urls[..|tasks|] == urls;
      r := Ok(Slack.HttpResponse(200, ""));
    }

    /** The loop of `on_slack_event` over the links of a `link_shared` event:
        it handles the URLs of the `roo.it` links in order, up to the first
        one whose tracker cannot be made. */
    method ProcessLinks(teamId: string, evt: Event, pages: map<string, Tracking.FrontendPage>)
      returns (failure: Option<Failure>, tasks: seq<Task>, ghost done: seq<string>)
      modifies this
      ensures |done| <= |RooUrls(evt.links)| && done == RooUrls(evt.links)[..|done|]
      ensures Processed(old(activeTrackers), activeTrackers, done, tasks, teamId, evt.channel, mock, pages, responses)
      ensures failure.None? ==> done == RooUrls(evt.links)
      ensures failure.Some? ==>
        && |done| < |RooUrls(evt.links)| && RooUrls(evt.links)[|done|] !in activeTrackers
        && NewTrackingUrl(mock, RooUrls(evt.links)[|done|], pages) == Err(failure.value)
    {
      tasks, done, failure := [], [], None;
      var i := 0;
      while i < |evt.links| && failure.None?
        invariant 0 <= i <= |evt.links|
        invariant failure.None? ==> done == RooUrls(evt.links[..i])
        invariant failure.Some? ==> 0 < i && done == RooUrls(evt.links[..i - 1]) && Failed(evt.links, i - 1, failure.value, pages)
        invariant Processed(old(activeTrackers), activeTrackers, done, tasks, teamId, evt.channel, mock, pages, responses)
      {
        RooUrlsNext(evt.links, i);
        ghost var done';
        failure, tasks, done' := ProcessLink(evt.links[i], teamId, evt.channel, pages, old(activeTrackers), done, tasks);
        if failure.None? {
          done := done';
        }
        i := i + 1;
      }
      if failure.Some? {
        RooUrlsAt(evt.links, i - 1);
      } else {
        assert evt.links[..i] == evt.links;
        RooUrlsPrefix(evt.links, i);
      }
    }

    /** Link `i` is a `roo.it` link left untracked whose tracker could not be made. */
    ghost predicate Failed(links: seq<Link>, i: nat, failure: Failure, pages: map<string, Tracking.FrontendPage>)
      reads this
    {
      && i < |links| && links[i].domain == TrackedDomain && links[i].url !in activeTrackers
      && NewTrackingUrl(mock, links[i].url, pages) == Err(failure)
    }

    /** The handler raising on the URL after `done` satisfies `Handled`. */
    lemma HandledFailure(before: map<string, Tracking.Tracker>, teamId: string, evt: Event,
                         pages: map<string, Tracking.FrontendPage>, done: seq<string>, tasks: seq<Task>, failure: Failure)
      requires Processed(before, activeTrackers, done, tasks, teamId, evt.channel, mock, pages, responses)
      requires |done| < |SharedUrls(evt)| && done == SharedUrls(evt)[..|done|]
      requires SharedUrls(evt)[|done|] !in activeTrackers
      requires NewTrackingUrl(mock, SharedUrls(evt)[|done|], pages) == Err(failure)
      ensures Handled(before, activeTrackers, teamId, evt, pages, Err(failure), tasks)
    {
    }

    /** The loop body of `ProcessLinks`, for one link of the event. */
    method ProcessLink(link: Link, teamId: string, channelId: string, pages: map<string, Tracking.FrontendPage>,
                       ghost before: map<string, Tracking.Tracker>, ghost done: seq<string>, tasks: seq<Task>)
      returns (failure: Option<Failure>, tasks': seq<Task>, ghost done': seq<string>)
      requires Processed(before, activeTrackers, done, tasks, teamId, channelId, mock, pages, responses)
      modifies this
      ensures done' == done + (if link.domain == TrackedDomain then [link.url] else [])
      ensures failure.None? ==> Processed(before, activeTrackers, done', tasks', teamId, channelId, mock, pages, responses)
      ensures failure.Some? ==> Processed(before, activeTrackers, done, tasks', teamId, channelId, mock, pages, responses)
      ensures failure.Some? ==>
        && link.domain == TrackedDomain && tasks' == tasks && activeTrackers == old(activeTrackers)
        && link.url !in activeTrackers && NewTrackingUrl(mock, link.url, pages) == Err(failure.value)
      ensures forall u :: u in old(activeTrackers) ==> u in activeTrackers && activeTrackers[u] == old(activeTrackers)[u]
    {
      if link.domain != TrackedDomain {
        return None, tasks, done;
      }
      done' := done + [link.url];
      failure, tasks' := HandleUrl(link.url, teamId, channelId, pages, before, done, tasks);
    }

    /** The handling of the URL of one `roo.it` link, as a step of `Processed`. */
    method HandleUrl(url: string, teamId: string, channelId: string, pages: map<string, Tracking.FrontendPage>,
                     ghost before: map<string, Tracking.Tracker>, ghost done: seq<string>, tasks: seq<Task>)
      returns (failure: Option<Failure>, tasks': seq<Task>)
      requires Processed(before, activeTrackers, done, tasks, teamId, channelId, mock, pages, responses)
      modifies this
      ensures failure.None? ==> Processed(before, activeTrackers, done + [url], tasks', teamId, channelId, mock, pages, responses)
      ensures failure.Some? ==>
        && Processed(before, activeTrackers, done, tasks', teamId, channelId, mock, pages, responses)
        && tasks' == tasks && activeTrackers == old(activeTrackers)
        && url !in activeTrackers && NewTrackingUrl(mock, url, pages) == Err(failure.value)
      ensures forall u :: u in old(activeTrackers) ==> u in activeTrackers && activeTrackers[u] == old(activeTrackers)[u]
    {
      ghost var after := activeTrackers;
      var r := TrackLink(url, teamId, channelId, pages);
      assert Processed(before, after, done, tasks, teamId, channelId, mock, pages, responses);
      if r.Err? {
        return Some(r.error), tasks;
      }
      if url in after {
        ProcessedKnown(before, after, done, tasks, teamId, channelId, mock, pages, responses, url, r.value);
      } else {
        ProcessedNew(before, after, done, tasks, teamId, channelId, mock, pages, responses, url, r.value.tracker);
      }
      failure, tasks' := None, tasks + [r.value];
    }
  }
}
