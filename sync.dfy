/**
 * The decision rules of one sync session (src/hooks/useFirebaseSync.jsx):
 * inbound snapshots with self-echo suppression and apply-if-different, the
 * creation of a missing document, the debounced and fingerprint-deduplicated
 * outbound write, and the presence writes. Remote calls are effects the
 * session returns; time is an explicit clock value in milliseconds.
 */
module Sync {
  import opened Wrappers
  import opened Values
  import opened Store

  const EchoWindowMs := 2000
  const DebounceMs := 300

  /** The fields of the remote dashboard document the session reads. */
  datatype RemoteDoc = RemoteDoc(widgets: Option<seq<Widget>>, theme: Option<string>,
                                 lastModifiedBy: Option<string>)

  /**
   * What `JSON.stringify(updateData)` distinguishes: the widgets, the theme and
   * the writer (`updatedAt` is the same server-timestamp sentinel every time).
   */
  datatype Fingerprint = Fingerprint(widgets: seq<Widget>, theme: string, writer: string)

  /** A debounced write waiting for its timer, with the state its closure captured. */
  datatype PendingWrite = PendingWrite(widgets: seq<Widget>, theme: string, due: int)

  /** What a session asks of the store and of the remote document. */
  datatype Effect =
    | Dispatch(action: Action)
    | CreateDocument(widgets: seq<Widget>, theme: string, lastModifiedBy: string, owner: string)
    | MergeWrite(widgets: seq<Widget>, theme: string, lastModifiedBy: string)
    | WritePresence(userId: string, online: bool)

  function Dispatches(actions: seq<Action>): (effects: seq<Effect>)
    ensures |effects| == |actions|
    ensures forall i :: 0 <= i < |actions| ==> effects[i] == Dispatch(actions[i])
  {
    if actions == [] then [] else [Dispatch(actions[0])] + Dispatches(actions[1..])
  }

  /** `user?.uid || "user-" + token`: the session's writer identity. */
  function WriterIdentity(uid: Option<string>, token: string): (w: string)
    ensures uid.Some? && uid.value != "" ==> w == uid.value
    ensures !(uid.Some? && uid.value != "") ==> w == "user-" + token
  {
    if uid.Some? && uid.value != "" then uid.value else "user-" + token
  }

  /**
   * `isOurUpdate && isRecentLocalUpdate`: the snapshot names this session as
   * its last writer and a local write was recorded less than 2000ms ago.
   */
  function IsOwnRecentEcho(doc: RemoteDoc, writerId: string, lastLocalWrite: Option<int>, now: int): (r: bool)
    ensures lastLocalWrite.None? ==> !r
    ensures doc.lastModifiedBy != Some(writerId) ==> !r
    ensures r ==> now < lastLocalWrite.value + EchoWindowMs
  {
    doc.lastModifiedBy == Some(writerId) &&
    lastLocalWrite.Some? && lastLocalWrite.value != 0 && now - lastLocalWrite.value < EchoWindowMs
  }

  /** For this session's own write at time t, a snapshot d milliseconds later is ignored iff d < 2000. */
  lemma EchoWindow(doc: RemoteDoc, writerId: string, t: int, d: int)
    requires t != 0 && doc.lastModifiedBy == Some(writerId)
    ensures IsOwnRecentEcho(doc, writerId, Some(t), t + d) <==> d < EchoWindowMs
  {
  }

  /** `data.widgets || []` */
  function IncomingWidgets(doc: RemoteDoc): (ws: seq<Widget>)
    ensures doc.widgets.None? ==> ws == []
    ensures doc.widgets.Some? ==> ws == doc.widgets.value
  {
    doc.widgets.GetOr([])
  }

  /** `data.theme && data.theme !== state.theme` */
  function ThemeDiffers(doc: RemoteDoc, local: DashboardState): (differs: bool)
    ensures differs <==> doc.theme.Some? && Truthy(Str(doc.theme.value)) && doc.theme.value != local.theme
    ensures differs ==> Reduce(local, SetTheme(doc.theme.value)) != local
  {
    doc.theme.Some? && doc.theme.value != "" && doc.theme.value != local.theme
  }

  /** The actions a snapshot that is not ignored dispatches, in order. */
  function InboundActions(doc: RemoteDoc, local: DashboardState, initialized: bool): (acts: seq<Action>)
    ensures |acts| <= 3
    ensures forall i :: 0 <= i < |acts| ==> acts[i].SetWidgets? || acts[i].SetTheme? || acts[i].SetLoading?
    ensures SetWidgets(IncomingWidgets(doc)) in acts <==> IncomingWidgets(doc) != local.widgets
    ensures SetTheme(doc.theme.GetOr("")) in acts <==> ThemeDiffers(doc, local)
    ensures SetLoading(false) in acts <==> !initialized
  {
    (if IncomingWidgets(doc) != local.widgets then [SetWidgets(IncomingWidgets(doc))] else [])
    + (if ThemeDiffers(doc, local) then [SetTheme(doc.theme.value)] else [])
    + (if !initialized then [SetLoading(false)] else [])
  }

  /**
   * Applying a snapshot makes the local widgets equal to the incoming ones
   * and adopts a non-empty incoming theme; loading is cleared on the first
   * snapshot only; selection, active users and lastModifiedBy are untouched.
   */
  lemma SnapshotConverges(doc: RemoteDoc, local: DashboardState, initialized: bool)
    ensures var r := ReduceAll(local, InboundActions(doc, local, initialized));
            && r.widgets == IncomingWidgets(doc)
            && r.theme == (if doc.theme.Some? && doc.theme.value != "" then doc.theme.value else local.theme)
            && r.isLoading == (if initialized then local.isLoading else false)
            && r.selectedWidgetId == local.selectedWidgetId
            && r.activeUsers == local.activeUsers
            && r.lastModifiedBy == local.lastModifiedBy
  {
    var w := if IncomingWidgets(doc) != local.widgets then [SetWidgets(IncomingWidgets(doc))] else [];
    var t := if ThemeDiffers(doc, local) then [SetTheme(doc.theme.GetOr(""))] else [];
    var l := if !initialized then [SetLoading(false)] else [];
    assert InboundActions(doc, local, initialized) == w + (t + l);
    ReduceAllAppend(local, w, t + l);
    var s1 := ReduceAll(local, w);
    ReduceAllAppend(s1, t, l);
    WidgetsStage(local, IncomingWidgets(doc));
    ThemeStage(s1, ThemeDiffers(doc, local), doc.theme.GetOr(""));
    LoadingStage(ReduceAll(s1, t), initialized);
  }

  /** The SET_WIDGETS step of a snapshot: the incoming list replaces the local one. */
  lemma WidgetsStage(s: DashboardState, ws: seq<Widget>)
    ensures ReduceAll(s, if ws != s.widgets then [SetWidgets(ws)] else []) == s.(widgets := ws)
  {
  }

  /** The SET_THEME step of a snapshot: the theme changes only when it differs. */
  lemma ThemeStage(s: DashboardState, differs: bool, theme: string)
    ensures ReduceAll(s, if differs then [SetTheme(theme)] else []) == s.(theme := if differs then theme else s.theme)
  {
  }

  /** The SET_LOADING step of a snapshot: loading is cleared only on the first one. */
  lemma LoadingStage(s: DashboardState, initialized: bool)
    ensures ReduceAll(s, if !initialized then [SetLoading(false)] else []) ==
            s.(isLoading := if initialized then s.isLoading else false)
  {
  }

  /**
   * A snapshot equal to the local state dispatches nothing once initialized,
   * and SET_LOADING is dispatched exactly when the session was not yet
   * initialized. The inbound path never dispatches SET_LAST_MODIFIED_BY.
   */
  lemma InboundDispatchRules(doc: RemoteDoc, local: DashboardState, initialized: bool)
    ensures IncomingWidgets(doc) == local.widgets && !ThemeDiffers(doc, local) && initialized ==>
              InboundActions(doc, local, initialized) == []
    ensures SetLoading(false) in InboundActions(doc, local, initialized) <==> !initialized
    ensures forall a :: a in InboundActions(doc, local, initialized) ==> !a.SetLastModifiedBy? && !a.SetSelectedWidget?
  {
  }

  class Session {
    /** `userId.current` */
    var writerId: string
    /** `isInitializedRef.current` */
    var initialized: bool
    /** `lastUpdateRef.current` */
    var lastFingerprint: Option<Fingerprint>
    /** `lastLocalUpdateRef.current` */
    var lastLocalWrite: Option<int>
    /** The debounce timer, if one is armed. */
    var pending: Option<PendingWrite>

    /** A write is only ever pending in an initialized session. */
    predicate Valid()
      reads this
    {
      pending.Some? ==> initialized
    }

    constructor(uid: Option<string>, token: string)
      ensures Valid()
      ensures writerId == WriterIdentity(uid, token)
      ensures !initialized && lastFingerprint == None && lastLocalWrite == None && pending == None
    {
      writerId := WriterIdentity(uid, token);
      initialized := false;
      lastFingerprint := None;
      lastLocalWrite := None;
      pending := None;
    }

    /**
     * When authentication resolves to a user with a uid, the writer identity
     * becomes it. The source also reruns its debounce effect on a change of
     * user, clearing the pending write and re-arming it only with a user; here
     * that is the caller's sequence of TearDown, Start and OnLocalChange, and
     * this method leaves `pending` as it is.
     */
    method ResolveUser(uid: Option<string>)
      requires Valid()
      modifies this
      ensures Valid()
      ensures writerId == if uid.Some? && uid.value != "" then uid.value else old(writerId)
      ensures initialized == old(initialized) && lastFingerprint == old(lastFingerprint)
      ensures lastLocalWrite == old(lastLocalWrite) && pending == old(pending)
    {
      if uid.Some? && uid.value != "" {
        writerId := uid.value;
      }
    }

    /** Subscribing, which happens only with a user: the session's presence record is upserted as online. */
    method Start(userPresent: bool) returns (effects: seq<Effect>)
      ensures effects == if userPresent then [WritePresence(writerId, true)] else []
    {
      effects := if userPresent then [WritePresence(writerId, true)] else [];
    }

    /**
     * A document snapshot. A missing document is created with defaults
     * attributed to this writer; this session's own recent write is ignored;
     * anything else is applied where it differs, and the first one applied
     * initializes the session.
     */
    method OnSnapshot(doc: Option<RemoteDoc>, local: DashboardState, now: int) returns (effects: seq<Effect>)
      requires Valid()
      modifies this
      ensures Valid()
      ensures writerId == old(writerId) && lastFingerprint == old(lastFingerprint)
      ensures lastLocalWrite == old(lastLocalWrite) && pending == old(pending)
      ensures doc.None? ==>
                effects == [CreateDocument([], "light", writerId, writerId)] && initialized == old(initialized)
      ensures doc.Some? && IsOwnRecentEcho(doc.value, writerId, lastLocalWrite, now) ==>
                effects == [] && initialized == old(initialized)
      ensures doc.Some? && !IsOwnRecentEcho(doc.value, writerId, lastLocalWrite, now) ==>
                initialized && effects == Dispatches(InboundActions(doc.value, local, old(initialized)))
    {
      if doc.None? {
        effects := [CreateDocument([], "light", writerId, writerId)];
        return;
      }
      var d := doc.value;
      if IsOwnRecentEcho(d, writerId, lastLocalWrite, now) {
        effects := [];
        return;
      }
      effects := Dispatches(InboundActions(d, local, initialized));
      initialized := true;
    }

    /** The creation write settles: success initializes; either way loading is cleared (fail open). */
    method OnCreateResult(ok: bool) returns (effects: seq<Effect>)
      requires Valid()
      modifies this
      ensures Valid()
      ensures initialized == (old(initialized) || ok)
      ensures effects == [Dispatch(SetLoading(false))]
      ensures writerId == old(writerId) && lastFingerprint == old(lastFingerprint)
      ensures lastLocalWrite == old(lastLocalWrite) && pending == old(pending)
    {
      if ok {
        initialized := true;
      }
      effects := [Dispatch(SetLoading(false))];
    }

    /**
     * The local widgets or theme changed: any armed timer is cancelled, and a
     * new one is armed for 300ms later only when initialized with a user.
     */
    method OnLocalChange(widgets: seq<Widget>, theme: string, userPresent: bool, now: int)
      requires Valid()
      modifies this
      ensures Valid()
      ensures pending == if initialized && userPresent then Some(PendingWrite(widgets, theme, now + DebounceMs)) else None
      ensures writerId == old(writerId) && initialized == old(initialized)
      ensures lastFingerprint == old(lastFingerprint) && lastLocalWrite == old(lastLocalWrite)
    {
      if initialized && userPresent {
        pending := Some(PendingWrite(widgets, theme, now + DebounceMs));
      } else {
        pending := None;
      }
    }

    /**
     * The clock reaches `now`. A due write is flushed unless its fingerprint
     * equals the last one sent; a sent write records its fingerprint and the
     * local-write time before the merge write.
     */
    method OnTimer(now: int) returns (effects: seq<Effect>)
      requires Valid()
      modifies this
      ensures Valid()
      ensures writerId == old(writerId) && initialized == old(initialized)
      ensures effects != [] ==> initialized
      ensures old(pending).None? || now < old(pending).value.due ==>
                effects == [] && pending == old(pending) &&
                lastFingerprint == old(lastFingerprint) && lastLocalWrite == old(lastLocalWrite)
      ensures old(pending).Some? && old(pending).value.due <= now ==>
                var p := old(pending).value;
                var fp := Fingerprint(p.widgets, p.theme, writerId);
                pending == None &&
                if old(lastFingerprint) == Some(fp) then
                  effects == [] && lastFingerprint == old(lastFingerprint) && lastLocalWrite == old(lastLocalWrite)
                else
                  effects == [MergeWrite(p.widgets, p.theme, writerId)] &&
                  lastFingerprint == Some(fp) && lastLocalWrite == Some(now)
    {
      effects := [];
      if pending.None? || now < pending.value.due {
        return;
      }
      var p := pending.value;
      pending := None;
      var fp := Fingerprint(p.widgets, p.theme, writerId);
      if lastFingerprint == Some(fp) {
        return;
      }
      lastFingerprint := Some(fp);
      lastLocalWrite := Some(now);
      effects := [MergeWrite(p.widgets, p.theme, writerId)];
    }

    /** The 30-second heartbeat refreshes presence, but only once initialized. */
    method OnHeartbeat() returns (effects: seq<Effect>)
      ensures effects == if initialized then [WritePresence(writerId, true)] else []
    {
      effects := if initialized then [WritePresence(writerId, true)] else [];
    }

    /** Teardown: the timer is cancelled and presence is marked offline. */
    method TearDown() returns (effects: seq<Effect>)
      requires Valid()
      modifies this
      ensures Valid()
      ensures pending == None && effects == [WritePresence(writerId, false)]
      ensures writerId == old(writerId) && initialized == old(initialized)
      ensures lastFingerprint == old(lastFingerprint) && lastLocalWrite == old(lastLocalWrite)
    {
      pending := None;
      effects := [WritePresence(writerId, false)];
    }
  }

  // ---------------------------------------------------------------------------
  // Scenarios

  /**
   * Echo suppression: this session writes at time t; its own write coming
   * back 500ms later is ignored, while a snapshot still attributed to it but
   * arriving 3000ms later with different widgets is applied.
   */
  method EchoSuppressionScenario(uid: string, ws: seq<Widget>, other: seq<Widget>, t: int)
    returns (written: seq<Effect>, early: seq<Effect>, late: seq<Effect>)
    requires uid != "" && t != 0 && other != ws
    ensures written == [MergeWrite(ws, "light", uid)]
    ensures early == []
    ensures late == [Dispatch(SetWidgets(other))]
  {
    var session := new Session(Some(uid), "token");
    var local := InitialState();
    var first := session.OnSnapshot(Some(RemoteDoc(Some([]), Some("light"), None)), local, t - 1000);
    local := local.(isLoading := false);
    session.OnLocalChange(ws, "light", true, t - DebounceMs);
    written := session.OnTimer(t);
    local := local.(widgets := ws);
    early := session.OnSnapshot(Some(RemoteDoc(Some(ws), Some("light"), Some(uid))), local, t + 500);
    late := session.OnSnapshot(Some(RemoteDoc(Some(other), Some("light"), Some(uid))), local, t + 3000);
  }

  /**
   * Debounce and deduplication: a second change within 300ms replaces the
   * first, and flushing the same content again sends nothing.
   */
  method DebounceScenario(uid: string, a: seq<Widget>, b: seq<Widget>, t: int)
    returns (tooEarly: seq<Effect>, flushed: seq<Effect>, repeated: seq<Effect>)
    ensures tooEarly == []
    ensures flushed == [MergeWrite(b, "light", WriterIdentity(Some(uid), "token"))]
    ensures repeated == []
  {
    var session := new Session(Some(uid), "token");
    var created := session.OnSnapshot(None, InitialState(), t);
    var settled := session.OnCreateResult(true);
    session.OnLocalChange(a, "light", true, t);
    session.OnLocalChange(b, "light", true, t + 100);
    tooEarly := session.OnTimer(t + 300);
    flushed := session.OnTimer(t + 400);
    session.OnLocalChange(b, "light", true, t + 1000);
    repeated := session.OnTimer(t + 1300);
  }
}
