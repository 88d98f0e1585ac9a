/**
 * The client's auth store when the app runs inside a partner's iframe: the
 * signed-in user, whether the app is framed, and the status messages it posts to
 * the parent window (recorded here as an outbox of posted messages).
 */
module AuthStore {
  import opened Wrappers
  import opened Json
  import opened Seqs
  import opened Text

  /** A signed-in user, an object and therefore truthy. */
  datatype User = User(fields: map<string, Json>)

  function UserJson(u: Option<User>): Json {
    match u
    case Some(user) => JObj(user.fields)
    case None => JNull
  }

  /** The parent origins the store trusts; the own origin is the last entry. */
  function AllowedParentOrigins(ownOrigin: string): seq<string> {
    ["https://gigafaze.com", "https://www.gigafaze.com", ownOrigin]
  }

  predicate IsValidParentOrigin(ownOrigin: string, origin: string): (b: bool)
    ensures b <==> origin == "https://gigafaze.com" || origin == "https://www.gigafaze.com" || origin == ownOrigin
  {
    origin in AllowedParentOrigins(ownOrigin)
  }

  /** `AUTH_STATUS_CHANGE`, stamped with the time and the app's source tag. */
  datatype StatusMessage = StatusMessage(kind: string, status: string, data: Json, timestamp: int, source: string)

  function StatusChange(status: string, data: Json, now: int): StatusMessage {
    StatusMessage("AUTH_STATUS_CHANGE", status, data, now, "gfaze-resume")
  }

  /** One `postMessage` call: the message and the target origin it is restricted to. */
  datatype Post = Post(message: StatusMessage, targetOrigin: string)

  function NotOwn(ownOrigin: string): string -> bool {
    o => o != ownOrigin
  }

  /** The target origins of one notification, in posting order: every other allowed origin, then `"*"`. */
  function Targets(ownOrigin: string): seq<string> {
    Filter(NotOwn(ownOrigin), AllowedParentOrigins(ownOrigin)) + ["*"]
  }

  function Posts(message: StatusMessage, targets: seq<string>): seq<Post> {
    Map((o: string) => Post(message, o), targets)
  }

  lemma PostsAppend(message: StatusMessage, a: seq<string>, b: seq<string>)
    ensures Posts(message, a + b) == Posts(message, a) + Posts(message, b)
  {
    MapAppend((o: string) => Post(message, o), a, b);
  }

  /** One more allowed origin adds one post, unless it is the own origin. */
  lemma PostsStep(message: StatusMessage, ownOrigin: string, origins: seq<string>, i: nat)
    requires i < |origins|
    ensures Posts(message, Filter(NotOwn(ownOrigin), origins[..i + 1]))
         == Posts(message, Filter(NotOwn(ownOrigin), origins[..i]))
            + (if origins[i] != ownOrigin then [Post(message, origins[i])] else [])
  {
    var p := NotOwn(ownOrigin);
    assert origins[..i + 1] == origins[..i] + [origins[i]];
    FilterAppend(p, origins[..i], [origins[i]]);
    PostsAppend(message, Filter(p, origins[..i]), Filter(p, [origins[i]]));
  }

  /** The last post is the wildcard one; every earlier post goes to an allowed origin other than the own one. */
  lemma TargetsShape(ownOrigin: string)
    ensures var t := Targets(ownOrigin);
      && |t| >= 1 && t[|t| - 1] == "*"
      && forall i :: 0 <= i < |t| - 1 ==> t[i] != ownOrigin && IsValidParentOrigin(ownOrigin, t[i])
  {
    var t := Targets(ownOrigin);
    var kept := Filter(NotOwn(ownOrigin), AllowedParentOrigins(ownOrigin));
    assert t == kept + ["*"];
    forall i | 0 <= i < |t| - 1
      ensures t[i] != ownOrigin && IsValidParentOrigin(ownOrigin, t[i])
    {
      assert t[i] == kept[i] && kept[i] in kept;
    }
  }

  /** Served from its own domain, the app posts to both gigafaze origins and then to `"*"`. */
  lemma TargetsOfOtherOrigin(ownOrigin: string)
    requires ownOrigin !in {"https://gigafaze.com", "https://www.gigafaze.com"}
    ensures Targets(ownOrigin) == ["https://gigafaze.com", "https://www.gigafaze.com", "*"]
  {
    var p := NotOwn(ownOrigin);
    var origins := AllowedParentOrigins(ownOrigin);
    assert Filter(p, origins[2..]) == [];
    assert Filter(p, origins[1..]) == [origins[1]];
  }

  class Store {
    const ownOrigin: string
    const hostname: string
    var user: Option<User>
    var isInIframe: bool
    /** Messages posted to the parent window, in order. */
    var outbox: seq<Post>
    /** Parent-message listeners registered so far. */
    var listeners: nat
    /** Cookies written, in order. */
    var cookies: seq<string>

    constructor (ownOrigin: string, hostname: string, detectedInIframe: bool)
      ensures this.ownOrigin == ownOrigin && this.hostname == hostname
      ensures user == None && isInIframe == detectedInIframe
      ensures outbox == [] && listeners == 0 && cookies == []
    {
      this.ownOrigin := ownOrigin;
      this.hostname := hostname;
      user := None;
      isInIframe := detectedInIframe;
      outbox := [];
      listeners := 0;
      cookies := [];
    }

    /** The persisted part of the store: only the user. */
    function Persisted(): Option<User>
      reads this
    {
      user
    }

    method SetUser(u: Option<User>)
      modifies this
      ensures user == u
      ensures isInIframe == old(isInIframe) && outbox == old(outbox) && listeners == old(listeners) && cookies == old(cookies)
    {
      user := u;
    }

    /**
     * `notifyParentWindow`: outside an iframe nothing is posted; inside, the same
     * message goes to every allowed origin other than the own one, then to `"*"`.
     */
    method NotifyParentWindow(status: string, data: Json, now: int)
      modifies this
      ensures !old(isInIframe) ==> outbox == old(outbox)
      ensures old(isInIframe) ==> outbox == old(outbox) + Posts(StatusChange(status, data, now), Targets(ownOrigin))
      ensures user == old(user) && isInIframe == old(isInIframe) && listeners == old(listeners) && cookies == old(cookies)
    {
      if !isInIframe {
        return;
      }
      var message := StatusChange(status, data, now);
      var origins := AllowedParentOrigins(ownOrigin);
      var p := NotOwn(ownOrigin);
      var i := 0;
      while i < |origins|
        invariant 0 <= i <= |origins|
        invariant outbox == old(outbox) + Posts(message, Filter(p, origins[..i]))
        invariant user == old(user) && isInIframe == old(isInIframe) && listeners == old(listeners) && cookies == old(cookies)
      {
        PostsStep(message, ownOrigin, origins, i);
        if origins[i] != ownOrigin {
          outbox := outbox + [Post(message, origins[i])];
        }
        i := i + 1;
      }
      assert origins[..i] == origins;
      PostsAppend(message, Filter(p, origins), ["*"]);
      outbox := outbox + [Post(message, "*")];
    }

    /** Store the user, then announce the new status (with the user when there is one). */
    method SetUserWithIframeNotification(u: Option<User>, now: int)
      modifies this
      ensures user == u
      ensures var status := if u.Some? then "authenticated" else "unauthenticated";
        var data := if u.Some? then JObj(map["user" := UserJson(u)]) else JUndefined;
        outbox == old(outbox) + (if isInIframe then Posts(StatusChange(status, data, now), Targets(ownOrigin)) else [])
      ensures isInIframe == old(isInIframe) && listeners == old(listeners) && cookies == old(cookies)
    {
      user := u;
      if u.Some? {
        NotifyParentWindow("authenticated", JObj(map["user" := UserJson(u)]), now);
      } else {
        NotifyParentWindow("unauthenticated", JUndefined, now);
      }
    }

    /** A successful framed sign-in: store and announce the user, and on a faze.pro host share the domain cookie. */
    method HandleIframeAuthSuccess(u: User, now: int)
      modifies this
      ensures user == Some(u)
      ensures outbox == old(outbox)
        + (if isInIframe then Posts(StatusChange("authenticated", JObj(map["user" := JObj(u.fields)]), now), Targets(ownOrigin)) else [])
      ensures cookies == old(cookies)
        + (if Contains(hostname, "faze.pro")
           then ["auth-domain=" + hostname + "; path=/; domain=.faze.pro; secure; samesite=none"] else [])
      ensures isInIframe == old(isInIframe) && listeners == old(listeners)
    {
      SetUserWithIframeNotification(Some(u), now);
      if Contains(hostname, "faze.pro") {
        cookies := cookies + ["auth-domain=" + hostname + "; path=/; domain=.faze.pro; secure; samesite=none"];
      }
    }

    /** A failed framed sign-in is announced; the user is left as it was. */
    method HandleIframeAuthError(error: string, now: int)
      modifies this
      ensures user == old(user)
      ensures outbox == old(outbox)
        + (if isInIframe then Posts(StatusChange("error", JObj(map["error" := JStr(error)]), now), Targets(ownOrigin)) else [])
      ensures isInIframe == old(isInIframe) && listeners == old(listeners) && cookies == old(cookies)
    {
      NotifyParentWindow("error", JObj(map["error" := JStr(error)]), now);
    }

    /** Record whether the app is framed; only a framed app listens to its parent (once more per call). */
    method InitializeIframeDetection(detected: bool)
      modifies this
      ensures isInIframe == detected
      ensures listeners == old(listeners) + (if detected then 1 else 0)
      ensures user == old(user) && outbox == old(outbox) && cookies == old(cookies)
    {
      isInIframe := detected;
      if detected {
        listeners := listeners + 1;
      }
    }

    /**
     * One registered listener receiving a parent message: a trusted
     * `REQUEST_AUTH_STATUS` is answered with the current user's status.
     */
    method HandleParentMessage(origin: string, data: Json, now: int)
      modifies this
      requires listeners > 0
      ensures !(IsValidParentOrigin(ownOrigin, origin) && Get(data, "type") == JStr("REQUEST_AUTH_STATUS"))
        ==> outbox == old(outbox)
      ensures IsValidParentOrigin(ownOrigin, origin) && Get(data, "type") == JStr("REQUEST_AUTH_STATUS") ==>
        var status := if user.Some? then "authenticated" else "unauthenticated";
        outbox == old(outbox)
          + (if isInIframe then Posts(StatusChange(status, JObj(map["user" := UserJson(user)]), now), Targets(ownOrigin)) else [])
      ensures user == old(user) && isInIframe == old(isInIframe) && listeners == old(listeners) && cookies == old(cookies)
    {
      if !IsValidParentOrigin(ownOrigin, origin) {
        return;
      }
      if Get(data, "type") == JStr("REQUEST_AUTH_STATUS") {
        NotifyParentWindow(if user.Some? then "authenticated" else "unauthenticated", JObj(map["user" := UserJson(user)]), now);
      }
    }
  }
}
