/** Check-in bookkeeping in bot.py: the session registry written by the
    `/location` command and read when a check-in is posted, and the
    "replace the previous check-in" step on the channel. A channel is its
    message list, newest first; Discord identifiers are strings. */
module CheckIn {
  import opened Wrappers
  import opened Text
  import opened Config

  // ------------------------------------------------------------ registry

  /** `LOCATION_USER_INFO` values (the display-only fields are left out). */
  datatype UserInfo = UserInfo(userId: string, username: string, avatarUrl: string, sessionId: string)

  /** `f"{channel_id}_{user_id}"`. */
  function UserKey(channelId: string, userId: string): (r: string)
    ensures |r| == |channelId| + 1 + |userId| && r[|channelId|] == '_'
  {
    channelId + "_" + userId
  }

  predicate NoUnderscore(s: string) {
    forall i :: 0 <= i < |s| ==> s[i] != '_'
  }

  /** Keys of channel ids without '_' (Discord ids are digits) name one (channel, user) pair. */
  lemma UserKeyInjective(c1: string, u1: string, c2: string, u2: string)
    requires NoUnderscore(c1) && NoUnderscore(c2)
    requires UserKey(c1, u1) == UserKey(c2, u2)
    ensures c1 == c2 && u1 == u2
  {
    var k := UserKey(c1, u1);
    assert forall j :: 0 <= j < |c1| ==> k[j] == c1[j] && k[j] != '_';
    assert forall j :: 0 <= j < |c2| ==> k[j] == c2[j] && k[j] != '_';
    assert k[|c1|] == '_' && k[|c2|] == '_';
    assert c1 == k[..|c1|] == c2;
    assert u1 == k[|c1| + 1..] == u2;
  }

  /** The poster's name and avatar: the stored record for
      `{LOCATION_CHANNEL_ID}_{user_id}` when there is one, else "Someone" and no avatar. */
  function ResolveUser(info: map<string, UserInfo>, channelId: string, userId: Option<string>)
    : (r: (string, Option<string>))
    ensures (Truthy(userId) && UserKey(channelId, userId.value) in info) ==>
              r == (info[UserKey(channelId, userId.value)].username,
                    Some(info[UserKey(channelId, userId.value)].avatarUrl))
    ensures !(Truthy(userId) && UserKey(channelId, userId.value) in info) ==> r == ("Someone", None)
  {
    if Truthy(userId) && UserKey(channelId, userId.value) in info then
      var u := info[UserKey(channelId, userId.value)];
      (u.username, Some(u.avatarUrl))
    else ("Someone", None)
  }

  /** The module-level globals `LOCATION_CHANNEL_ID` and `LOCATION_USER_INFO`. */
  class Registry {
    var locationChannel: Option<string>
    var info: map<string, UserInfo>

    constructor ()
      ensures locationChannel == None && info == map[]
    {
      locationChannel := None;
      info := map[];
    }

    /** `/location`: one channel id for the whole bot, and the user's record
        under the (channel, user) key, replacing an older one. */
    method StartSession(channelId: string, userId: string, username: string, avatarUrl: string,
                        sessionId: string)
      modifies this
      ensures locationChannel == Some(channelId)
      ensures info == old(info)[UserKey(channelId, userId) := UserInfo(userId, username, avatarUrl, sessionId)]
    {
      locationChannel := Some(channelId);
      info := info[UserKey(channelId, userId) := UserInfo(userId, username, avatarUrl, sessionId)];
    }
  }

  /** A check-in right after the user's own `/location` carries the user's name and avatar. */
  lemma OwnSessionResolves(info: map<string, UserInfo>, channelId: string, userId: string,
                           username: string, avatarUrl: string, sessionId: string)
    requires userId != ""
    ensures ResolveUser(info[UserKey(channelId, userId) := UserInfo(userId, username, avatarUrl, sessionId)],
                        channelId, Some(userId)) == (username, Some(avatarUrl))
  {
  }

  /** The channel id is global: once another user runs `/location` in a second
      channel, a check-in of the first user is looked up under the second
      channel and falls back to "Someone". */
  lemma LaterSessionElsewhereHidesName(channelA: string, channelB: string, userA: string, userB: string,
                                       nameA: string, nameB: string, avatar: string, s1: string, s2: string)
    requires NoUnderscore(channelA) && NoUnderscore(channelB)
    requires channelA != channelB && userA != "" && userA != userB
    ensures var info := map[][UserKey(channelA, userA) := UserInfo(userA, nameA, avatar, s1)]
                             [UserKey(channelB, userB) := UserInfo(userB, nameB, avatar, s2)];
            ResolveUser(info, channelB, Some(userA)) == ("Someone", None)
  {
    if UserKey(channelB, userA) == UserKey(channelA, userA) {
      UserKeyInjective(channelB, userA, channelA, userA);
    }
    if UserKey(channelB, userA) == UserKey(channelB, userB) {
      UserKeyInjective(channelB, userA, channelB, userB);
    }
  }

  // ------------------------------------------------------------- channel

  /** A history entry: its author and the titles of its embeds (None for an untitled embed). */
  datatype Message = Message(author: string, titles: seq<Option<string>>)

  const HistoryLimit: nat := 10

  datatype Verdict = Hit | Miss | Raise

  /** `any("Check-in" in embed.title for embed in message.embeds)`: an
      untitled embed raises a TypeError. */
  function TitlesVerdict(titles: seq<Option<string>>): (v: Verdict)
    ensures v == Hit ==> exists i :: 0 <= i < |titles| && titles[i].Some? && Contains(titles[i].value, "Check-in")
    ensures v == Miss ==> forall i :: 0 <= i < |titles| ==> titles[i].Some? && !Contains(titles[i].value, "Check-in")
    ensures v == Raise ==> exists i :: 0 <= i < |titles| && titles[i].None?
  {
    if titles == [] then Miss
    else if titles[0].None? then Raise
    else if Contains(titles[0].value, "Check-in") then Hit
    else
      var v := TitlesVerdict(titles[1..]);
      assert forall i :: 1 <= i < |titles| ==> titles[i] == titles[1..][i - 1];
      v
  }

  /** Every embed before position `n` has a title without "Check-in", so
      `any` has not stopped before it. */
  predicate Undecided(titles: seq<Option<string>>, n: int)
    requires n <= |titles|
  {
    forall k :: 0 <= k < n ==> titles[k].Some? && !Contains(titles[k].value, "Check-in")
  }

  /** The embed at `i` is the first that settles `any`, and has "Check-in" in its title. */
  predicate HitAt(titles: seq<Option<string>>, i: int) {
    0 <= i < |titles| && Undecided(titles, i) && titles[i].Some? && Contains(titles[i].value, "Check-in")
  }

  /** The embed at `i` is the first that settles `any`, and is untitled. */
  predicate RaiseAt(titles: seq<Option<string>>, i: int) {
    0 <= i < |titles| && Undecided(titles, i) && titles[i].None?
  }

  /** The verdict is decided by the first embed that is untitled or has
      "Check-in" in its title: a hit iff that embed has the title, a raise
      iff it is untitled, a miss iff there is no such embed. */
  lemma {:induction false} FirstEmbedDecides(titles: seq<Option<string>>)
    ensures TitlesVerdict(titles) == Hit <==> exists i :: HitAt(titles, i)
    ensures TitlesVerdict(titles) == Raise <==> exists i :: RaiseAt(titles, i)
    ensures TitlesVerdict(titles) == Miss <==> Undecided(titles, |titles|)
  {
    if titles == [] {
    } else if titles[0].None? {
      assert RaiseAt(titles, 0);
      assert forall i :: 0 < i <= |titles| ==> !Undecided(titles, i);
    } else if Contains(titles[0].value, "Check-in") {
      assert HitAt(titles, 0);
      assert forall i :: 0 < i <= |titles| ==> !Undecided(titles, i);
    } else {
      var t := titles[1..];
      FirstEmbedDecides(t);
      TitlesShift(titles);
      assert TitlesVerdict(titles) == TitlesVerdict(t);
      if j :| HitAt(t, j) {
        ShiftAt(titles, j + 1);
      }
      if j :| RaiseAt(t, j) {
        ShiftAt(titles, j + 1);
      }
      forall i | HitAt(titles, i) || RaiseAt(titles, i) ensures HitAt(t, i - 1) || RaiseAt(t, i - 1) {
        ShiftAt(titles, i);
      }
    }
  }

  /** Past a first title without "Check-in", the embed at `i` settles `any`
      exactly when the tail's embed at `i - 1` does. */
  lemma ShiftAt(titles: seq<Option<string>>, i: int)
    requires |titles| > 0 && titles[0].Some? && !Contains(titles[0].value, "Check-in")
    requires 0 <= i <= |titles|
    ensures HitAt(titles, i) <==> i >= 1 && HitAt(titles[1..], i - 1)
    ensures RaiseAt(titles, i) <==> i >= 1 && RaiseAt(titles[1..], i - 1)
  {
    if i >= 1 {
      TitlesShift(titles);
      if i < |titles| {
        assert titles[i] == titles[1..][i - 1];
      }
    }
  }

  /** Past a first title without "Check-in", the embeds before position `i`
      are undecided exactly when those of the tail before `i - 1` are. */
  lemma TitlesShift(titles: seq<Option<string>>)
    requires |titles| > 0 && titles[0].Some? && !Contains(titles[0].value, "Check-in")
    ensures forall i :: 1 <= i <= |titles| ==> (Undecided(titles, i) <==> Undecided(titles[1..], i - 1))
  {
    forall i | 1 <= i <= |titles|
      ensures Undecided(titles, i) <==> Undecided(titles[1..], i - 1)
    {
      if Undecided(titles[1..], i - 1) {
        forall k | 0 <= k < i ensures titles[k].Some? && !Contains(titles[k].value, "Check-in") {
          if k > 0 { assert titles[k] == titles[1..][k - 1]; }
        }
      }
      if Undecided(titles, i) {
        forall k | 0 <= k < i - 1 ensures titles[1..][k].Some? && !Contains(titles[1..][k].value, "Check-in") {
          assert titles[1..][k] == titles[k + 1];
        }
      }
    }
  }

  /** The condition on one history entry; the embed titles are only looked at
      for the bot's own messages with at least one embed. */
  function MessageVerdict(m: Message, botUser: string): Verdict {
    if m.author == botUser && |m.titles| > 0 then TitlesVerdict(m.titles) else Miss
  }

  datatype ScanResult = Found(index: nat) | NotFound | Raised

  /** Scan of the newest `HistoryLimit` messages from position `i` on. */
  function ScanFrom(msgs: seq<Message>, botUser: string, i: nat): (r: ScanResult)
    requires i <= |msgs|
    ensures r.Found? ==> i <= r.index < |msgs| && r.index < HistoryLimit
                         && MessageVerdict(msgs[r.index], botUser) == Hit
                         && forall j :: i <= j < r.index ==> MessageVerdict(msgs[j], botUser) == Miss
    ensures r.NotFound? ==> forall j :: i <= j < |msgs| && j < HistoryLimit ==> MessageVerdict(msgs[j], botUser) == Miss
    ensures r.Raised? ==> exists j :: i <= j < |msgs| && j < HistoryLimit
                                      && MessageVerdict(msgs[j], botUser) == Raise
                                      && forall k :: i <= k < j ==> MessageVerdict(msgs[k], botUser) == Miss
    decreases |msgs| - i
  {
    if i == |msgs| || i >= HistoryLimit then NotFound
    else match MessageVerdict(msgs[i], botUser)
      case Hit => Found(i)
      case Raise => Raised
      case Miss => ScanFrom(msgs, botUser, i + 1)
  }

  function Scan(msgs: seq<Message>, botUser: string): ScanResult {
    ScanFrom(msgs, botUser, 0)
  }

  function RemoveAt(s: seq<Message>, j: nat): (r: seq<Message>)
    requires j < |s|
    ensures |r| == |s| - 1
    ensures forall k :: 0 <= k < j ==> r[k] == s[k]
    ensures forall k :: j <= k < |r| ==> r[k] == s[k + 1]
  {
    s[..j] + s[j + 1..]
  }

  /** The history after the deletion step: the found message is gone unless its deletion raised. */
  function AfterDeletion(msgs: seq<Message>, botUser: string, deleteFails: bool): (r: seq<Message>)
    ensures |r| == |msgs| || |r| == |msgs| - 1
    ensures Scan(msgs, botUser).Found? && !deleteFails ==> |r| == |msgs| - 1
    // The found message is the one removed; the others keep their order.
    ensures Scan(msgs, botUser).Found? && !deleteFails ==>
              (forall k :: 0 <= k < Scan(msgs, botUser).index ==> r[k] == msgs[k])
              && (forall k :: Scan(msgs, botUser).index <= k < |r| ==> r[k] == msgs[k + 1])
    ensures !(Scan(msgs, botUser).Found? && !deleteFails) ==> r == msgs
  {
    var s := Scan(msgs, botUser);
    if s.Found? && !deleteFails then RemoveAt(msgs, s.index) else msgs
  }

  /** One message of the history loop, reached with nothing decided before it. */
  lemma ScanStep(h: seq<Message>, botUser: string, deleteFails: bool, i: nat)
    requires i < |h| && i < HistoryLimit && ScanFrom(h, botUser, i) == Scan(h, botUser)
    ensures MessageVerdict(h[i], botUser) == Hit ==>
              AfterDeletion(h, botUser, deleteFails) == if deleteFails then h else RemoveAt(h, i)
    ensures MessageVerdict(h[i], botUser) == Raise ==> AfterDeletion(h, botUser, deleteFails) == h
    ensures MessageVerdict(h[i], botUser) == Miss ==> ScanFrom(h, botUser, i + 1) == Scan(h, botUser)
  {
  }

  /** The history loop ran out of messages or of its limit with nothing found. */
  lemma ScanEnd(h: seq<Message>, botUser: string, deleteFails: bool, i: nat)
    requires i <= |h| && (i == |h| || i >= HistoryLimit) && ScanFrom(h, botUser, i) == Scan(h, botUser)
    ensures AfterDeletion(h, botUser, deleteFails) == h
  {
  }

  /** `f"{username}'s Check-in"`. */
  function CheckInTitle(username: string): (t: string)
    ensures Contains(t, "Check-in")
  {
    ContainsSuffix(username + "'s ", "Check-in");
    assert username + "'s Check-in" == (username + "'s ") + "Check-in";
    username + "'s Check-in"
  }

  class Channel {
    var messages: seq<Message>

    constructor (messages: seq<Message>)
      ensures this.messages == messages
    {
      this.messages := messages;
    }

    /** The history loop: the first bot message among the newest ten with a
        "Check-in" embed is deleted and the loop stops; an error anywhere
        ends the step with nothing (more) deleted. */
    method DeletePreviousCheckIn(botUser: string, deleteFails: bool)
      modifies this
      ensures messages == AfterDeletion(old(messages), botUser, deleteFails)
    {
      ghost var h := messages;
      var i := 0;
      while i < |messages| && i < HistoryLimit
        invariant 0 <= i <= |messages|
        invariant messages == h
        invariant ScanFrom(h, botUser, i) == Scan(h, botUser)
      {
        ScanStep(h, botUser, deleteFails, i);
        var verdict := MessageVerdict(messages[i], botUser);
        if verdict == Raise {
          return;
        }
        if verdict == Hit {
          if !deleteFails {
            messages := RemoveAt(messages, i);
          }
          return;
        }
        i := i + 1;
      }
      ScanEnd(h, botUser, deleteFails, i);
    }

    /** `channel.send`: the new message becomes the newest. */
    method Send(m: Message)
      modifies this
      ensures messages == [m] + old(messages)
    {
      messages := [m] + messages;
    }
  }

  /** The store selected on the portal (only what the embed shows). */
  datatype SelectedStore = SelectedStore(name: string, address: string, distance: real)

  /** `post_enhanced_location_to_discord`. `channel` is what `bot.get_channel`
      returns for the registry's channel id; `sendFails` says whether
      `channel.send` raises. Returns whether the check-in was posted. */
  method PostCheckIn(reg: Registry, ready: bool, channel: Channel?, botUser: string,
                     userId: Option<string>, store: Option<SelectedStore>,
                     deleteFails: bool, sendFails: bool) returns (ok: bool)
    modifies channel
    ensures ok <==> ready && Truthy(reg.locationChannel) && channel != null && store.Some? && !sendFails
    ensures channel != null && !(ready && Truthy(reg.locationChannel) && store.Some?) ==>
              channel.messages == old(channel.messages)
    ensures channel != null && ready && Truthy(reg.locationChannel) && store.Some? ==>
              var after := AfterDeletion(old(channel.messages), botUser, deleteFails);
              var title := CheckInTitle(ResolveUser(reg.info, reg.locationChannel.value, userId).0);
              channel.messages == if sendFails then after else [Message(botUser, [Some(title)])] + after
  {
    if !ready || !Truthy(reg.locationChannel) {
      return false;
    }
    if channel == null {
      return false;
    }
    if store.None? {
      return false;
    }
    var (username, _) := ResolveUser(reg.info, reg.locationChannel.value, userId);
    var m := Message(botUser, [Some(CheckInTitle(username))]);
    channel.DeletePreviousCheckIn(botUser, deleteFails);
    if sendFails {
      return false;
    }
    channel.Send(m);
    ok := true;
  }

  // ------------------------------------------------------------ properties

  /** A posted check-in is the one the next check-in deletes, whoever posts
      next: the scan does not look at the user. */
  lemma NextCheckInReplacesIt(msgs: seq<Message>, botUser: string, username: string)
    ensures var posted := [Message(botUser, [Some(CheckInTitle(username))])] + msgs;
            Scan(posted, botUser) == Found(0) && AfterDeletion(posted, botUser, false) == msgs
  {
    var posted := [Message(botUser, [Some(CheckInTitle(username))])] + msgs;
    assert TitlesVerdict(posted[0].titles) == Hit;
    assert posted[1..] == msgs;
  }

  /** Another user's message with "Check-in" in a title is never deleted. */
  lemma OthersMessagesKept(msgs: seq<Message>, botUser: string, i: nat)
    requires i < |msgs| && msgs[i].author != botUser
    ensures Scan(msgs, botUser) != Found(i)
  {
  }

  /** A bot message among the ten newest whose first deciding embed is
      untitled, with only misses before it, makes the scan raise: nothing is
      deleted, wherever the previous check-in is. */
  lemma UntitledEmbedBlocksDeletion(msgs: seq<Message>, botUser: string, deleteFails: bool, i: nat, e: nat)
    requires i < |msgs| && i < HistoryLimit && msgs[i].author == botUser
    requires RaiseAt(msgs[i].titles, e)
    requires forall j :: 0 <= j < i ==> MessageVerdict(msgs[j], botUser) == Miss
    ensures Scan(msgs, botUser) == Raised
    ensures AfterDeletion(msgs, botUser, deleteFails) == msgs
  {
    FirstEmbedDecides(msgs[i].titles);
    assert MessageVerdict(msgs[i], botUser) == Raise;
  }

  /** Only the ten newest messages are looked at. */
  lemma OlderThanTenIgnored(msgs: seq<Message>, botUser: string)
    requires |msgs| > HistoryLimit
    requires forall j :: 0 <= j < HistoryLimit ==> MessageVerdict(msgs[j], botUser) == Miss
    ensures AfterDeletion(msgs, botUser, false) == msgs
  {
    ScanNoHitInWindow(msgs, botUser, 0);
  }

  lemma {:induction false} ScanNoHitInWindow(msgs: seq<Message>, botUser: string, i: nat)
    requires i <= |msgs|
    requires forall j :: i <= j < |msgs| && j < HistoryLimit ==> MessageVerdict(msgs[j], botUser) == Miss
    ensures ScanFrom(msgs, botUser, i) == NotFound
    decreases |msgs| - i
  {
    if i < |msgs| && i < HistoryLimit {
      ScanNoHitInWindow(msgs, botUser, i + 1);
    }
  }
}
