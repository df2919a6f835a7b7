/** The channel profile read by `getUserChannelProfile`: the user whose
    username is the lower-cased request parameter, joined twice with the
    subscription edges (as channel and as subscriber) and projected. */
module Channels {
  import opened Common
  import opened Users

  /** One subscription edge: `subscriber` follows `channel`. */
  datatype Subscription = Subscription(subscriber: UserId, channel: UserId)

  /** The projected profile: `$project` by inclusion keeps `_id` and the
      listed fields, and drops password, refresh token and the edge lists. */
  datatype ChannelProfile = ChannelProfile(
    id: UserId,
    fullname: string,
    username: string,
    email: string,
    subscribersCount: nat,
    channelSubscribedToCount: nat,
    isSubscribed: bool,
    avatar: Url,
    coverImage: Url)

  /** `$lookup` with foreignField "channel": the edges into `id`, in order. */
  function SubscribersOf(subs: seq<Subscription>, id: UserId): (r: seq<Subscription>)
    ensures |r| <= |subs|
    ensures forall e :: e in r <==> e in subs && e.channel == id
  {
    if subs == [] then []
    else (if subs[0].channel == id then [subs[0]] else []) + SubscribersOf(subs[1..], id)
  }

  /** `$lookup` with foreignField "subscriber": the edges out of `id`, in order. */
  function SubscribedToOf(subs: seq<Subscription>, id: UserId): (r: seq<Subscription>)
    ensures |r| <= |subs|
    ensures forall e :: e in r <==> e in subs && e.subscriber == id
  {
    if subs == [] then []
    else (if subs[0].subscriber == id then [subs[0]] else []) + SubscribedToOf(subs[1..], id)
  }

  /** `"$subscribers.subscriber"`: the subscriber field of each edge. */
  function SubscriberIds(edges: seq<Subscription>): (r: seq<UserId>)
    ensures |r| == |edges|
    ensures forall x :: x in r <==> exists e :: e in edges && e.subscriber == x
  {
    if edges == [] then []
    else
      assert forall e :: e in edges[1..] ==> e in edges;
      [edges[0].subscriber] + SubscriberIds(edges[1..])
  }

  /** `"$...channel"`: the channel field of each edge. */
  function ChannelIds(edges: seq<Subscription>): (r: seq<UserId>)
    ensures |r| == |edges|
    ensures forall x :: x in r <==> exists e :: e in edges && e.channel == x
  {
    if edges == [] then []
    else
      assert forall e :: e in edges[1..] ==> e in edges;
      [edges[0].channel] + ChannelIds(edges[1..])
  }

  /** `$match: { username: username.toLowerCase() }`, first document. */
  function FindByUsername(users: seq<User>, name: string): (r: Option<nat>)
    ensures r.Some? ==> r.value < |users| && users[r.value].username == name
    ensures r.Some? ==> forall j :: 0 <= j < r.value ==> users[j].username != name
    ensures r.None? <==> forall j :: 0 <= j < |users| ==> users[j].username != name
  {
    FirstIndex(users, (u: User) => u.username == name)
  }

  /** `$addFields` and `$project` for one matched user. */
  function Project(u: User, subs: seq<Subscription>, caller: UserId): (p: ChannelProfile)
    ensures p.subscribersCount == |SubscribersOf(subs, u.id)|
    ensures p.channelSubscribedToCount == |SubscribedToOf(subs, u.id)|
    ensures p.isSubscribed <==> Subscription(caller, u.id) in subs
    ensures p.id == u.id && p.fullname == u.fullname && p.username == u.username && p.email == u.email
    ensures p.avatar == u.avatar && p.coverImage == u.coverImage
  {
    var subscribers := SubscribersOf(subs, u.id);
    var isSubscribed := caller in SubscriberIds(subscribers);
    assert isSubscribed ==> Subscription(caller, u.id) in subscribers;
    ChannelProfile(
      u.id, u.fullname, u.username, u.email,
      |subscribers|, |SubscribedToOf(subs, u.id)|, isSubscribed,
      u.avatar, u.coverImage)
  }

  /** `users[i]` is the first user whose username is `name`. */
  predicate IsChannel(users: seq<User>, name: string, i: int)
  {
    0 <= i < |users| && users[i].username == name && forall j :: 0 <= j < i ==> users[j].username != name
  }

  /** `getUserChannelProfile` for the route parameter `username` and the
      authenticated `caller`. */
  function GetUserChannelProfile(users: seq<User>, subs: seq<Subscription>, username: Option<string>, caller: UserId)
    : (r: Result<ChannelProfile, Failure>)
    ensures username.None? || IsBlank(username.value) ==> r == Err(ApiError(BadRequest, "Username is missing."))
    ensures username.Some? && !IsBlank(username.value) ==>
      (r == Err(ApiError(NotFound, "Channel Does not Exists.")) <==>
       forall j :: 0 <= j < |users| ==> users[j].username != Lower(username.value))
    ensures r.Ok? <==>
      (username.Some? && !IsBlank(username.value) &&
       exists j :: 0 <= j < |users| && users[j].username == Lower(username.value))
    ensures r.Ok? ==> username.Some? && exists i :: IsChannel(users, Lower(username.value), i) && r.value == Project(users[i], subs, caller)
  {
    if username.None? || IsBlank(username.value) then Err(ApiError(BadRequest, "Username is missing."))
    else match FindByUsername(users, Lower(username.value))
      case None => Err(ApiError(NotFound, "Channel Does not Exists."))
      case Some(i) =>
        assert IsChannel(users, Lower(username.value), i);
        Ok(Project(users[i], subs, caller))
  }

  /** The profile does not depend on the case of the requested username. */
  lemma ProfileIgnoresCase(users: seq<User>, subs: seq<Subscription>, x: string, y: string, caller: UserId)
    requires Lower(x) == Lower(y)
    ensures GetUserChannelProfile(users, subs, Some(x), caller) == GetUserChannelProfile(users, subs, Some(y), caller)
  {
    LowerKeepsBlank(x);
    LowerKeepsBlank(y);
  }

  /** Edges split over a concatenation. */
  lemma {:induction false} SubscribersOfConcat(a: seq<Subscription>, b: seq<Subscription>, id: UserId)
    ensures SubscribersOf(a + b, id) == SubscribersOf(a, id) + SubscribersOf(b, id)
  {
    if a == [] {
      assert a + b == b;
    } else {
      assert (a + b)[0] == a[0];
      assert (a + b)[1..] == a[1..] + b;
      SubscribersOfConcat(a[1..], b, id);
    }
  }

  /** A new edge raises the subscriber count of its channel by one and leaves
      every other channel's count alone. */
  lemma SubscribeCountsOnce(subs: seq<Subscription>, e: Subscription, id: UserId)
    ensures |SubscribersOf(subs + [e], id)| == |SubscribersOf(subs, id)| + (if e.channel == id then 1 else 0)
  {
    SubscribersOfConcat(subs, [e], id);
  }

  /** `subscribersCount` is the number of edges whose channel is the user:
      the multiplicity of the user's id in the channel column. */
  lemma {:induction false} SubscribersCountIsMultiplicity(subs: seq<Subscription>, id: UserId)
    ensures |SubscribersOf(subs, id)| == multiset(ChannelIds(subs))[id]
  {
    if subs != [] {
      SubscribersCountIsMultiplicity(subs[1..], id);
    }
  }

  /** `channelSubscribedToCount` is the number of edges whose subscriber is
      the user: the multiplicity of the user's id in the subscriber column. */
  lemma {:induction false} SubscribedToCountIsMultiplicity(subs: seq<Subscription>, id: UserId)
    ensures |SubscribedToOf(subs, id)| == multiset(SubscriberIds(subs))[id]
  {
    if subs != [] {
      SubscribedToCountIsMultiplicity(subs[1..], id);
    }
  }

  /** A caller who is subscribed is counted among the channel's subscribers. */
  lemma SubscribedIsCounted(users: seq<User>, subs: seq<Subscription>, username: Option<string>, caller: UserId)
    requires GetUserChannelProfile(users, subs, username, caller).Ok?
    ensures var p := GetUserChannelProfile(users, subs, username, caller).value;
      p.isSubscribed ==> p.subscribersCount >= 1
  {
    var name := username.value;
    var i :| IsChannel(users, Lower(name), i) && GetUserChannelProfile(users, subs, username, caller).value == Project(users[i], subs, caller);
    var edge := Subscription(caller, users[i].id);
    if edge in subs {
      assert edge in SubscribersOf(subs, users[i].id);
    }
  }
}
