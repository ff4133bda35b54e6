/** The Slack side of the relay: channels with a lazily cached token, posting
    with the join-and-retry rule, fan-out to a list of channels, and the
    request-signature gate in front of the event handler. */
module Slack {
  import opened Wrappers
  import Strings
  import Seqs

  /** A Block Kit section: mrkdwn text with an image accessory. */
  datatype Block = Section(text: string, imageUrl: string, altText: string)

  /** An HTTP response produced by a handler. */
  datatype HttpResponse = HttpResponse(status: int, text: string)

  // ---------------------------------------------------------------------------
  // Tokens

  /** `HGET slackiveroo.tokens <team>` on the token store: the team's token, or nothing. */
  function Lookup(store: map<string, string>, teamId: string): Option<string> {
    if teamId in store then Some(store[teamId]) else None
  }

  /** Python's `not self.token`: no token, or the empty one. */
  predicate Unset(token: Option<string>) {
    token.None? || token.value == ""
  }

  /** The token a channel holds after `get_token`, given the one it held before. */
  function CachedToken(token: Option<string>, store: map<string, string>, teamId: string): (r: Option<string>)
    ensures !Unset(token) ==> r == token
    ensures Unset(token) && teamId in store ==> r == Some(store[teamId])
    ensures Unset(token) && teamId !in store ==> r == None
  {
    if Unset(token) then Lookup(store, teamId) else token
  }

  /** A second `get_token` changes nothing the first did not: the cache is stable. */
  lemma CachedTokenStable(token: Option<string>, store: map<string, string>, teamId: string)
    ensures CachedToken(CachedToken(token, store, teamId), store, teamId) == CachedToken(token, store, teamId)
    ensures !Unset(token) ==> CachedToken(token, store, teamId) == token
  {
  }

  // ---------------------------------------------------------------------------
  // The Slack Web API, seen through the replies it gives

  /** A request sent to the Slack Web API, with the bearer token it carries. */
  datatype Request =
    | ChatPostMessage(channelId: string, token: Option<string>, text: string, blocks: seq<Block>)
    | ConversationsJoin(channelId: string, token: Option<string>)

  /** The decoded JSON reply of a Slack Web API call. */
  datatype Reply = Reply(ok: bool, error: string)

  /** The one failure `post_message` recovers from: the app is not in the channel. */
  predicate NotInChannel(r: Reply) {
    !r.ok && r.error == "not_in_channel"
  }

  /** The Slack Web API: the replies it will give, in order, and the log of the
      requests sent to it. A call when no reply is left fails (the HTTP call raises). */
  class Api {
    var replies: seq<Reply>
    var sent: seq<Request>

    constructor (replies: seq<Reply>)
      ensures this.replies == replies && sent == []
    {
      this.replies := replies;
      sent := [];
    }

    method Call(req: Request) returns (r: Option<Reply>)
      modifies this
      ensures sent == old(sent) + [req]
      ensures old(replies) == [] ==> r == None && replies == []
      ensures old(replies) != [] ==> r == Some(old(replies)[0]) && replies == old(replies)[1..]
    {
      sent := sent + [req];
      if replies == [] {
        r := None;
      } else {
        r := Some(replies[0]);
        replies := replies[1..];
      }
    }
  }

  /** What one post to one channel does: whether it succeeded, the requests it
      sent, and the replies left after it. */
  datatype Exchange = Exchange(ok: bool, sent: seq<Request>, rest: seq<Reply>)

  /** `Channel.post_message` on the replies the API gives: post; on a
      `not_in_channel` failure join and post again; any other failure raises. */
  function Attempt(channelId: string, token: Option<string>, text: string, blocks: seq<Block>, replies: seq<Reply>): (e: Exchange)
    ensures |e.sent| >= 1
    ensures |e.rest| <= |replies|
    decreases |replies|
  {
    var post := ChatPostMessage(channelId, token, text, blocks);
    if replies == [] then Exchange(false, [post], [])
    else if NotInChannel(replies[0]) then
      var join := ConversationsJoin(channelId, token);
      if |replies| == 1 then Exchange(false, [post, join], [])
      else if !replies[1].ok then Exchange(false, [post, join], replies[2..])
      else
        var again := Attempt(channelId, token, text, blocks, replies[2..]);
        Exchange(again.ok, [post, join] + again.sent, again.rest)
    else Exchange(replies[0].ok, [post], replies[1..])
  }

  /** `sent` alternates `post` and `join`, starting with `post`. */
  predicate Alternates(sent: seq<Request>, post: Request, join: Request) {
    forall i :: 0 <= i < |sent| ==> sent[i] == if i % 2 == 0 then post else join
  }

  /** The requests of one post alternate post, join, post, ... always with the
      same message. */
  lemma {:induction false} AttemptRequests(channelId: string, token: Option<string>, text: string, blocks: seq<Block>, replies: seq<Reply>)
    ensures Alternates(Attempt(channelId, token, text, blocks, replies).sent,
                       ChatPostMessage(channelId, token, text, blocks), ConversationsJoin(channelId, token))
    decreases |replies|
  {
    var post, join := ChatPostMessage(channelId, token, text, blocks), ConversationsJoin(channelId, token);
    var e := Attempt(channelId, token, text, blocks, replies);
    if |replies| >= 2 && NotInChannel(replies[0]) && replies[1].ok {
      AttemptRequests(channelId, token, text, blocks, replies[2..]);
      var again := Attempt(channelId, token, text, blocks, replies[2..]);
      assert e.sent == [post, join] + again.sent;
      forall i | 0 <= i < |e.sent|
        ensures e.sent[i] == if i % 2 == 0 then post else join
      {
        if i >= 2 {
          assert e.sent[i] == again.sent[i - 2] && (i - 2) % 2 == i % 2;
        }
      }
    } else {
      assert |e.sent| <= 2 && 0 % 2 == 0 && 1 % 2 == 1;
    }
  }

  /** Every request but the last got `not_in_channel` (a post) or ok (a
      join); each request used one reply, except a last one the API had no
      reply left for. */
  lemma {:induction false} AttemptReplies(channelId: string, token: Option<string>, text: string, blocks: seq<Block>, replies: seq<Reply>)
    ensures var e := Attempt(channelId, token, text, blocks, replies);
      && (forall i :: 0 <= i < |e.sent| - 1 ==>
            i < |replies| && (i % 2 == 0 ==> NotInChannel(replies[i])) && (i % 2 == 1 ==> replies[i].ok))
      && (|e.sent| == |replies| - |e.rest| || (e.rest == [] && |e.sent| == |replies| + 1 && !e.ok))
    decreases |replies|
  {
    if |replies| >= 2 && NotInChannel(replies[0]) && replies[1].ok {
      AttemptReplies(channelId, token, text, blocks, replies[2..]);
      var again := Attempt(channelId, token, text, blocks, replies[2..]);
      var e := Attempt(channelId, token, text, blocks, replies);
      assert |e.sent| == 2 + |again.sent|;
      forall i | 2 <= i < |e.sent| - 1
        ensures replies[i] == replies[2..][i - 2] && (i - 2) % 2 == i % 2
      {
      }
    }
  }

  /** The converse of `AttemptReplies`: the exchange ends only where the
      rule lets it. A post answered `not_in_channel` is always followed by a
      join, and an ok join by a new post; so the reply to the last request,
      when there is one, is neither. */
  lemma {:induction false} AttemptRetries(channelId: string, token: Option<string>, text: string, blocks: seq<Block>, replies: seq<Reply>)
    ensures var e := Attempt(channelId, token, text, blocks, replies); var k := |e.sent| - 1;
      k < |replies| ==> (k % 2 == 0 ==> !NotInChannel(replies[k])) && (k % 2 == 1 ==> !replies[k].ok)
    decreases |replies|
  {
    if |replies| >= 2 && NotInChannel(replies[0]) && replies[1].ok {
      AttemptRetries(channelId, token, text, blocks, replies[2..]);
      var again := Attempt(channelId, token, text, blocks, replies[2..]);
      var e := Attempt(channelId, token, text, blocks, replies);
      var k := |e.sent| - 1;
      assert k == |again.sent| + 1 && k % 2 == (k - 2) % 2;
      if k < |replies| {
        assert replies[k] == replies[2..][k - 2];
      }
    }
  }

  /** An exchange consumes a prefix of the replies: what is left is the
      untouched suffix, for the next channel. */
  lemma {:induction false} AttemptRest(channelId: string, token: Option<string>, text: string, blocks: seq<Block>, replies: seq<Reply>)
    ensures var e := Attempt(channelId, token, text, blocks, replies);
      e.rest == replies[|replies| - |e.rest|..]
    decreases |replies|
  {
    if |replies| >= 2 && NotInChannel(replies[0]) && replies[1].ok {
      AttemptRest(channelId, token, text, blocks, replies[2..]);
      var again := Attempt(channelId, token, text, blocks, replies[2..]);
      assert replies[2..][|replies[2..]| - |again.rest|..] == replies[|replies| - |again.rest|..];
    }
  }

  /** A post answered `not_in_channel`, then an ok join, then an ok retry:
      the channel is joined and the message posted again, successfully. */
  lemma AttemptJoinRetry(channelId: string, token: Option<string>, text: string, blocks: seq<Block>, r0: Reply, r1: Reply, r2: Reply)
    requires NotInChannel(r0) && r1.ok && r2.ok
    ensures var post := ChatPostMessage(channelId, token, text, blocks);
      Attempt(channelId, token, text, blocks, [r0, r1, r2])
        == Exchange(true, [post, ConversationsJoin(channelId, token), post], [])
  {
    assert [r0, r1, r2][2..] == [r2] && [r2][1..] == [];
  }

  /** The post succeeded exactly when its last request was a post whose
      reply was ok. */
  lemma {:induction false} AttemptOutcome(channelId: string, token: Option<string>, text: string, blocks: seq<Block>, replies: seq<Reply>)
    ensures var e := Attempt(channelId, token, text, blocks, replies);
      e.ok <==> |e.sent| == |replies| - |e.rest| && |e.sent| % 2 == 1 && replies[|e.sent| - 1].ok
    decreases |replies|
  {
    if |replies| >= 2 && NotInChannel(replies[0]) && replies[1].ok {
      AttemptOutcome(channelId, token, text, blocks, replies[2..]);
      var again := Attempt(channelId, token, text, blocks, replies[2..]);
      var e := Attempt(channelId, token, text, blocks, replies);
      assert |e.sent| == 2 + |again.sent|;
      assert |replies| - |e.rest| == 2 + (|replies[2..]| - |again.rest|);
      if |e.sent| == |replies| - |e.rest| {
        assert replies[|e.sent| - 1] == replies[2..][|again.sent| - 1];
      }
    }
  }

  /** A Slack channel: its identity is the (team, channel) pair; the token is a cache. */
  class Channel {
    const teamId: string
    const channelId: string
    var token: Option<string>

    constructor (teamId: string, channelId: string)
      ensures this.teamId == teamId && this.channelId == channelId && token == None
    {
      this.teamId := teamId;
      this.channelId := channelId;
      token := None;
    }

    /** Python's `__eq__`: same team and channel; the token plays no part. */
    predicate Equals(other: Channel): (b: bool)
      ensures b <==> teamId == other.teamId && channelId == other.channelId
    {
      (teamId, channelId) == (other.teamId, other.channelId)
    }

    /** `get_token`: look the token up only while none is cached. */
    method GetToken(store: map<string, string>) returns (t: Option<string>, looked: bool)
      modifies this`token
      ensures looked == Unset(old(token))
      ensures token == CachedToken(old(token), store, teamId) && t == token
    {
      looked := Unset(token);
      if looked {
        token := Lookup(store, teamId);
      }
      t := token;
    }

    /** `join`: ask the API to add the app to this channel; a non-ok reply raises. */
    method Join(api: Api, store: map<string, string>) returns (ok: bool)
      modifies this`token, api
      ensures token == CachedToken(old(token), store, teamId)
      ensures api.sent == old(api.sent) + [ConversationsJoin(channelId, token)]
      ensures old(api.replies) == [] ==> !ok && api.replies == []
      ensures old(api.replies) != [] ==> ok == old(api.replies)[0].ok && api.replies == old(api.replies)[1..]
    {
      var t, _ := GetToken(store);
      var r := api.Call(ConversationsJoin(channelId, t));
      ok := r.Some? && r.value.ok;
    }

    /** `post_message`: post, and on `not_in_channel` join and post again. */
    method PostMessage(text: string, blocks: seq<Block>, api: Api, store: map<string, string>) returns (ok: bool, ghost e: Exchange)
      modifies this`token, api
      ensures token == CachedToken(old(token), store, teamId)
      ensures e == Attempt(channelId, token, text, blocks, old(api.replies))
      ensures ok == e.ok && api.sent == old(api.sent) + e.sent && api.replies == e.rest
      decreases |api.replies|
    {
      var t, _ := GetToken(store);
      var post := ChatPostMessage(channelId, t, text, blocks);
      var r := api.Call(post);
      if r.None? {
        ok, e := false, Exchange(false, [post], []);
      } else if NotInChannel(r.value) {
        var joined := Join(api, store);
        CachedTokenStable(old(token), store, teamId);
        var join := ConversationsJoin(channelId, t);
        if joined {
          ghost var again;
          ok, again := PostMessage(text, blocks, api, store);
          assert old(api.sent) + [post] + [join] == old(api.sent) + [post, join];
          Seqs.AppendAssoc(old(api.sent), [post, join], again.sent);
          e := Exchange(again.ok, [post, join] + again.sent, again.rest);
        } else {
          ok, e := false, Exchange(false, [post, join], api.replies);
        }
      } else {
        ok, e := r.value.ok, Exchange(r.value.ok, [post], api.replies);
      }
    }
  }

  /** Channel equality is an equivalence on the (team, channel) pair; the
      token, a mutable cache, plays no part in it. */
  lemma ChannelEquality(a: Channel, b: Channel, c: Channel)
    ensures a.Equals(a)
    ensures a.Equals(b) <==> a.teamId == b.teamId && a.channelId == b.channelId
    ensures a.Equals(b) ==> b.Equals(a)
    ensures a.Equals(b) && b.Equals(c) ==> a.Equals(c)
  {
  }

  // ---------------------------------------------------------------------------
  // Fan-out

  /** Where a post to a channel goes: its id and the token `get_token` will give it. */
  function Target(c: Channel, store: map<string, string>): (string, Option<string>)
    reads c
  {
    (c.channelId, CachedToken(c.token, store, c.teamId))
  }

  function Targets(channels: seq<Channel>, store: map<string, string>): (ts: seq<(string, Option<string>)>)
    reads set c | c in channels
    ensures |ts| == |channels| && forall i :: 0 <= i < |channels| ==> ts[i] == Target(channels[i], store)
    decreases |channels|
  {
    if channels == [] then [] else [Target(channels[0], store)] + Targets(channels[1..], store)
  }

  /** What a fan-out did: how many channels it reached (tried), whether all
      succeeded, the requests sent and the replies left. */
  datatype Round = Round(reached: nat, ok: bool, sent: seq<Request>, rest: seq<Reply>)

  /** Module-level `post_message`: each channel in turn; the first failure raises
      and the channels after it are never tried. */
  function FanOut(targets: seq<(string, Option<string>)>, text: string, blocks: seq<Block>, replies: seq<Reply>): (r: Round)
    ensures r.reached <= |targets|
    ensures r.ok ==> r.reached == |targets|
    ensures !r.ok ==> r.reached >= 1
    ensures |r.rest| <= |replies|
    decreases |targets|
  {
    if targets == [] then Round(0, true, [], replies)
    else
      var r := FanOut(targets[..|targets| - 1], text, blocks, replies);
      if !r.ok then r
      else
        var last := targets[|targets| - 1];
        var a := Attempt(last.0, last.1, text, blocks, r.rest);
        Round(r.reached + 1, a.ok, r.sent + a.sent, a.rest)
  }

  /** When every reply is ok, each channel gets exactly one post, in list order. */
  lemma {:induction false} FanOutAllOk(targets: seq<(string, Option<string>)>, text: string, blocks: seq<Block>, replies: seq<Reply>)
    requires |replies| >= |targets|
    requires forall i :: 0 <= i < |replies| ==> replies[i].ok
    ensures var r := FanOut(targets, text, blocks, replies);
      r.ok && r.rest == replies[|targets|..] &&
      r.sent == seq(|targets|, i requires 0 <= i < |targets| => ChatPostMessage(targets[i].0, targets[i].1, text, blocks))
    decreases |targets|
  {
    if targets != [] {
      var n := |targets| - 1;
      var init := targets[..n];
      FanOutAllOk(init, text, blocks, replies);
      var r := FanOut(init, text, blocks, replies);
      assert r.rest[0] == replies[n];
      assert r.rest[1..] == replies[n + 1..];
      var post := ChatPostMessage(targets[n].0, targets[n].1, text, blocks);
      assert FanOut(targets, text, blocks, replies).sent == r.sent + [post];
    }
  }

  /** The replies a fan-out leaves are the untouched suffix of the script:
      each channel's exchange reads the replies after the previous one's. */
  lemma {:induction false} FanOutRest(targets: seq<(string, Option<string>)>, text: string, blocks: seq<Block>, replies: seq<Reply>)
    ensures var r := FanOut(targets, text, blocks, replies);
      r.rest == replies[|replies| - |r.rest|..]
    decreases |targets|
  {
    if targets != [] {
      var init := targets[..|targets| - 1];
      FanOutRest(init, text, blocks, replies);
      var r := FanOut(init, text, blocks, replies);
      if r.ok {
        var last := targets[|targets| - 1];
        AttemptRest(last.0, last.1, text, blocks, r.rest);
        var a := Attempt(last.0, last.1, text, blocks, r.rest);
        assert r.rest[|r.rest| - |a.rest|..] == replies[|replies| - |a.rest|..];
      }
    }
  }

  /** Once a fan-out over `a` fails, the channels put after `a` are never
      tried: the outcome over `a + b` is the outcome over `a`. */
  lemma {:induction false} FanOutStops(a: seq<(string, Option<string>)>, b: seq<(string, Option<string>)>, text: string, blocks: seq<Block>, replies: seq<Reply>)
    requires !FanOut(a, text, blocks, replies).ok
    ensures FanOut(a + b, text, blocks, replies) == FanOut(a, text, blocks, replies)
    decreases |b|
  {
    if b == [] {
      assert a + b == a;
    } else {
      var init := b[..|b| - 1];
      FanOutStops(a, init, text, blocks, replies);
      assert (a + b)[..|a + b| - 1] == a + init;
    }
  }

  /** One step of the fan-out loop: the outcome over the first `i + 1`
      channels, or over all of them once channel `i` failed. */
  lemma FanOutStep(targets: seq<(string, Option<string>)>, i: nat, text: string, blocks: seq<Block>, replies: seq<Reply>, sent: seq<Request>, left: seq<Reply>)
    requires i < |targets|
    requires FanOut(targets[..i], text, blocks, replies) == Round(i, true, sent, left)
    ensures var a := Attempt(targets[i].0, targets[i].1, text, blocks, left);
      && (a.ok ==> FanOut(targets[..i + 1], text, blocks, replies) == Round(i + 1, true, sent + a.sent, a.rest))
      && (!a.ok ==> FanOut(targets, text, blocks, replies) == Round(i + 1, false, sent + a.sent, a.rest))
  {
    assert targets[..i + 1][..i] == targets[..i];
    var a := Attempt(targets[i].0, targets[i].1, text, blocks, left);
    if !a.ok {
      FanOutStops(targets[..i + 1], targets[i + 1..], text, blocks, replies);
      assert targets[..i + 1] + targets[i + 1..] == targets;
    }
  }

  /** The tokens of `channels` once the first `i` of them have been posted to:
      those reached hold what `get_token` gave them, the others what they held. */
  ghost predicate TokensAfter(channels: seq<Channel>, i: nat, orig: map<Channel, Option<string>>, store: map<string, string>)
    requires i <= |channels|
    reads set c | c in channels
  {
    forall c :: c in channels ==>
      && c in orig
      && c.token == if c in channels[..i] then CachedToken(orig[c], store, c.teamId) else orig[c]
  }

  /** The state of the fan-out loop before channel `i`. */
  ghost predicate FanOutSoFar(channels: seq<Channel>, i: nat, text: string, blocks: seq<Block>, store: map<string, string>,
                              targets: seq<(string, Option<string>)>, orig: map<Channel, Option<string>>,
                              replies: seq<Reply>, sent: seq<Request>, left: seq<Reply>)
    requires i <= |channels|
    reads set c | c in channels
  {
    && |targets| == |channels|
    && FanOut(targets[..i], text, blocks, replies) == Round(i, true, sent, left)
    && (forall j :: 0 <= j < |channels| ==>
          && channels[j] in orig
          && targets[j] == (channels[j].channelId, CachedToken(orig[channels[j]], store, channels[j].teamId)))
    && TokensAfter(channels, i, orig, store)
  }

  /** One turn of the fan-out loop: post to channel `i`. */
  method PostNext(channels: seq<Channel>, i: nat, text: string, blocks: seq<Block>, api: Api, store: map<string, string>,
                  ghost targets: seq<(string, Option<string>)>, ghost orig: map<Channel, Option<string>>,
                  ghost replies: seq<Reply>, ghost sent: seq<Request>) returns (ok: bool, ghost step: seq<Request>)
    requires i < |channels|
    requires FanOutSoFar(channels, i, text, blocks, store, targets, orig, replies, sent, api.replies)
    modifies api, channels[i]
    ensures api.sent == old(api.sent) + step
    ensures TokensAfter(channels, i + 1, orig, store)
    ensures ok ==> FanOutSoFar(channels, i + 1, text, blocks, store, targets, orig, replies, sent + step, api.replies)
    ensures !ok ==> FanOut(targets, text, blocks, replies) == Round(i + 1, false, sent + step, api.replies)
  {
    var chan := channels[i];
    CachedTokenStable(orig[chan], store, chan.teamId);
    FanOutStep(targets, i, text, blocks, replies, sent, api.replies);
    ghost var a;
    ok, a := chan.PostMessage(text, blocks, api, store);
    assert channels[..i + 1] == channels[..i] + [chan];
    step := a.sent;
    forall c | c in channels
      ensures c in orig && c.token == if c in channels[..i + 1] then CachedToken(orig[c], store, c.teamId) else orig[c]
    {
      if c != chan {
        assert c in channels[..i + 1] <==> c in channels[..i];
      }
    }
  }

  /** Module-level `post_message`: post to each channel in list order; a failure stops the loop. */
  method PostMessage(channels: seq<Channel>, text: string, blocks: seq<Block>, api: Api, store: map<string, string>) returns (ok: bool, ghost r: Round)
    modifies api, set c | c in channels
    ensures r == FanOut(old(Targets(channels, store)), text, blocks, old(api.replies))
    ensures ok == r.ok && api.sent == old(api.sent) + r.sent && api.replies == r.rest
    ensures forall c :: c in channels ==>
      c.token == if c in channels[..r.reached] then CachedToken(old(c.token), store, c.teamId) else old(c.token)
  {
    ghost var targets := Targets(channels, store);
    ghost var replies := api.replies;
    ghost var orig := map c | c in channels :: c.token;
    ghost var sent: seq<Request> := [];
    var i := 0;
    assert channels[..0] == [];
    while i < |channels|
      invariant 0 <= i <= |channels|
      invariant api.sent == old(api.sent) + sent
      invariant FanOutSoFar(channels, i, text, blocks, store, targets, orig, replies, sent, api.replies)
    {
      ghost var step;
      ok, step := PostNext(channels, i, text, blocks, api, store, targets, orig, replies, sent);
      Seqs.AppendAssoc(old(api.sent), sent, step);
      sent := sent + step;
      i := i + 1;
      if !ok {
        r := Round(i, false, sent, api.replies);
        return;
      }
    }
    assert targets[..i] == targets;
    ok, r := true, Round(i, true, sent, api.replies);
  }

  // ---------------------------------------------------------------------------
  // Request signatures

  /** The string Slack signs: version, timestamp and body, separated by colons. */
  function SignedMessage(timestamp: int, body: string): string {
    "v0:" + Strings.Decimal(timestamp) + ":" + body
  }

  /** `sign_request`: `v0=` followed by the keyed digest of the signed message;
      `hmac(key, msg)` stands for the hex HMAC-SHA256 digest. */
  function SignRequest(hmac: (string, string) -> string, key: string, timestamp: int, body: string): (sig: string)
    ensures |sig| >= 3 && sig[..3] == "v0=" && sig[3..] == hmac(key, SignedMessage(timestamp, body))
  {
    "v0=" + hmac(key, SignedMessage(timestamp, body))
  }

  lemma NoColonInDecimal(n: int)
    ensures ':' !in Strings.Decimal(n)
  {
    var d := Strings.Decimal(n);
    var digits := Strings.DecimalNat(if n < 0 then -n else n);
    assert forall i :: 0 <= i < |digits| ==> digits[i] != ':';
    if n < 0 {
      assert d == "-" + digits;
      assert forall i :: 1 <= i < |d| ==> d[i] == digits[i - 1];
    }
  }

  /** The signed message determines the timestamp and the body it was made from. */
  lemma SignedMessageInjective(t1: int, b1: string, t2: int, b2: string)
    requires SignedMessage(t1, b1) == SignedMessage(t2, b2)
    ensures t1 == t2 && b1 == b2
  {
    var d1, d2 := Strings.Decimal(t1), Strings.Decimal(t2);
    var m := SignedMessage(t1, b1);
    NoColonInDecimal(t1);
    NoColonInDecimal(t2);
    assert m == "v0:" + d1 + ":" + b1 && m == "v0:" + d2 + ":" + b2;
    assert forall k :: 0 <= k < |d1| ==> m[3 + k] == d1[k] && m[3 + k] != ':';
    assert forall k :: 0 <= k < |d2| ==> m[3 + k] == d2[k] && m[3 + k] != ':';
    assert m[3 + |d1|] == ':' && m[3 + |d2|] == ':';
    assert |d1| == |d2|;
    assert d1 == m[3..3 + |d1|] == d2;
    assert b1 == m[4 + |d1|..] == b2;
    Strings.DecimalInjective(t1, t2);
  }

  /** The verdict of the `verify_signature` gate on one request. */
  datatype Verdict =
    | Accept        // fresh and correctly signed: the wrapped handler runs
    | Stale         // more than five minutes from now: 403 "Invalid timestamp"
    | Forged        // fresh, but the signature differs: 403 "You're not Slack"
    | BadTimestamp  // the timestamp header is not an integer: `int()` raises

  function Abs(x: real): real {
    if x < 0.0 then -x else x
  }

  /** The largest distance, in seconds, between the request's timestamp and now. */
  const FreshnessWindow: real := 300.0

  /** `verify_signature`: reject stale requests before looking at the
      signature; otherwise accept exactly when the signature matches. */
  function Verify(now: real, timestampHeader: string, signatureHeader: string, body: string,
                  hmac: (string, string) -> string, key: string): (v: Verdict)
    ensures v == BadTimestamp <==> Strings.ParseInt(timestampHeader).None?
    ensures v == Stale <==> exists ts :: Strings.ParseInt(timestampHeader) == Some(ts) && Abs(now - ts as real) > FreshnessWindow
    ensures v == Accept <==> exists ts :: Strings.ParseInt(timestampHeader) == Some(ts) && Abs(now - ts as real) <= FreshnessWindow
                                          && signatureHeader == SignRequest(hmac, key, ts, body)
  {
    match Strings.ParseInt(timestampHeader)
    case None => BadTimestamp
    case Some(ts) =>
      if Abs(now - ts as real) > FreshnessWindow then Stale
      else if SignRequest(hmac, key, ts, body) == signatureHeader then Accept
      else Forged
  }

  /** The response the gate gives instead of running the handler. */
  function Rejection(v: Verdict): (r: HttpResponse)
    requires v == Stale || v == Forged
    ensures r.status == 403
    ensures r.text == if v == Stale then "Invalid timestamp" else "You're not Slack"
  {
    if v == Stale then HttpResponse(403, "Invalid timestamp") else HttpResponse(403, "You're not Slack")
  }

  /** While the digest is one-to-one in the message, an accepted signature
      vouches for one timestamp and one body: replaying it with another body
      or another timestamp is rejected. The one-to-one requirement is an
      idealisation of HMAC-SHA256's collision resistance, which no real digest
      meets outright; what this lemma adds to it is `SignedMessageInjective`,
      that the signed message itself determines the timestamp and the body. */
  lemma AcceptedSignatureBindsRequest(now1: real, ts1: string, body1: string, now2: real, ts2: string, body2: string,
                                      signature: string, hmac: (string, string) -> string, key: string)
    requires forall m1, m2 :: hmac(key, m1) == hmac(key, m2) ==> m1 == m2
    requires Verify(now1, ts1, signature, body1, hmac, key) == Accept
    requires Verify(now2, ts2, signature, body2, hmac, key) == Accept
    ensures body1 == body2 && Strings.ParseInt(ts1) == Strings.ParseInt(ts2)
  {
    var t1, t2 := Strings.ParseInt(ts1).value, Strings.ParseInt(ts2).value;
    assert "v0=" + hmac(key, SignedMessage(t1, body1)) == "v0=" + hmac(key, SignedMessage(t2, body2));
    assert hmac(key, SignedMessage(t1, body1)) == ("v0=" + hmac(key, SignedMessage(t1, body1)))[3..];
    assert hmac(key, SignedMessage(t2, body2)) == ("v0=" + hmac(key, SignedMessage(t2, body2)))[3..];
    SignedMessageInjective(t1, body1, t2, body2);
  }
}
