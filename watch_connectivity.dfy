/** The Apple Watch card (`WatchConnectivity.tsx`): connection flags updated by a
    one-time initialisation and by session, reachability and message events, a
    debug log that keeps the five newest entries, the guards in front of a data
    request, and the status icon and text. Native calls arrive as parameters
    (`Threw` when the call raised), as do the clock's time-of-day text and the
    JSON text of the objects the log prints. */
module WatchConnectivityComponent {
  import opened Common
  import HealthKitService

  const Activated: string := "activated"
  const NotActivated: string := "not_activated"

  /** How many entries the debug log keeps. */
  const MaxDebugEntries: nat := 5

  function Min(a: int, b: int): int
  {
    if a < b then a else b
  }

  // ---------------------------------------------------------------------------
  // The debug log

  /** A log entry: the time of day it was added and what it says. */
  datatype LogEntry = LogEntry(time: string, note: Note)

  /** An entry's line, `[${time}] ${info}`. */
  function Render(entry: LogEntry): string
  {
    "[" + entry.time + "] " + Text(entry.note)
  }

  /** The log shown for a history of entries (oldest first): the five newest,
      newest first. */
  function Newest(history: seq<LogEntry>): (r: seq<LogEntry>)
    ensures |r| == Min(MaxDebugEntries, |history|)
    ensures forall i :: 0 <= i < |r| ==> r[i] == history[|history| - 1 - i]
  {
    HealthKitService.Reverse(history)[..Min(MaxDebugEntries, |history|)]
  }

  /** `addDebugInfo`'s update (the new entry first, then the four newest old
      entries) keeps the shown log equal to the five newest of the history. */
  lemma NewestStep(history: seq<LogEntry>, entry: LogEntry)
    ensures Newest(history + [entry]) == [entry] + Newest(history)[..Min(4, |Newest(history)|)]
  {
    var l := Newest(history + [entry]);
    var r := [entry] + Newest(history)[..Min(4, |Newest(history)|)];
    assert |l| == |r|;
    forall i | 0 <= i < |l|
      ensures l[i] == r[i]
    {
      if i > 0 {
        assert (history + [entry])[|history| - i] == history[|history| - 1 - (i - 1)];
      }
    }
  }

  /** The lines the card shows for the entries it keeps. */
  function Lines(entries: seq<LogEntry>): (lines: seq<string>)
    ensures |lines| == |entries|
  {
    seq(|entries|, i requires 0 <= i < |entries| => Render(entries[i]))
  }

  /** Each note stamped with the same time. */
  function Stamped(time: string, notes: seq<Note>): (r: seq<LogEntry>)
    ensures |r| == |notes| && forall i :: 0 <= i < |notes| ==> r[i] == LogEntry(time, notes[i])
  {
    seq(|notes|, i requires 0 <= i < |notes| => LogEntry(time, notes[i]))
  }

  lemma StampedOne(time: string, a: Note)
    ensures Stamped(time, [a]) == [LogEntry(time, a)]
  {
  }

  lemma StampedTwo(time: string, a: Note, b: Note)
    ensures Stamped(time, [a, b]) == [LogEntry(time, a), LogEntry(time, b)]
  {
  }

  lemma StampedThree(time: string, a: Note, b: Note, c: Note)
    ensures Stamped(time, [a, b, c]) == [LogEntry(time, a), LogEntry(time, b), LogEntry(time, c)]
  {
  }

  lemma StampedAppend(time: string, a: seq<Note>, b: seq<Note>)
    ensures Stamped(time, a + b) == Stamped(time, a) + Stamped(time, b)
  {
  }

  /** The card's debug log: the entries shown and, as a ghost, every entry ever
      added, oldest first. */
  class DebugLog {
    var entries: seq<LogEntry>
    ghost var history: seq<LogEntry>

    ghost predicate Valid()
      reads this
    {
      entries == Newest(history)
    }

    constructor ()
      ensures Valid() && entries == [] && history == []
    {
      entries := [];
      history := [];
    }

    /** `addDebugInfo`: the time-stamped entry goes first; only the four newest
        old entries stay behind it. */
    method Add(note: Note, time: string)
      modifies this
      requires Valid()
      ensures Valid()
      ensures history == old(history) + [LogEntry(time, note)]
    {
      NewestStep(history, LogEntry(time, note));
      entries := [LogEntry(time, note)] + entries[..Min(4, |entries|)];
      history := history + [LogEntry(time, note)];
    }

  }

  // ---------------------------------------------------------------------------
  // What the log says

  /** The events the card logs; `Text` gives each one's wording. */
  datatype Note =
    | InitStarting
    | SessionStarted
    | SessionStartFailed(error: string)
    | SessionRead(json: string)
    | SessionReadFailed(error: string)
    | AppInstalled(installed: bool)
    | WatchReachable(reachable: bool)
    | SessionActivated
    | SessionNotActivated(installed: bool, reachable: bool)
    | InitFailed(error: string)
    | SessionChanged(json: string)
    | ReachabilityChanged(reachable: bool)
    | SessionDeactivated
    | MessageReceived(json: string)
    | TestStarting
    | SessionRestarting
    | TestSession(json: string)
    | TestInstalled(installed: bool)
    | TestReachable(reachable: bool)
    | TestFailed(error: string)

  function BoolText(b: bool): string
  {
    if b then "true" else "false"
  }

  function Text(note: Note): string
  {
    match note
    case InitStarting => "Watch Connectivity 초기화 시작..."
    case SessionStarted => "WatchConnectivity 세션 시작됨"
    case SessionStartFailed(e) => "세션 시작 오류: " + e
    case SessionRead(json) => "현재 세션 상태: " + json
    case SessionReadFailed(e) => "세션 상태 확인 오류: " + e
    case AppInstalled(b) => "Watch 앱 설치: " + (if b then "설치됨" else "미설치")
    case WatchReachable(b) => "Watch 연결 가능: " + (if b then "예" else "아니오")
    case SessionActivated => "세션 활성화됨"
    case SessionNotActivated(i, r) => "세션 비활성화 (설치: " + BoolText(i) + ", 연결: " + BoolText(r) + ")"
    case InitFailed(e) => "초기화 오류: " + e
    case SessionChanged(json) => "세션 상태 변경: " + json
    case ReachabilityChanged(b) => "연결 상태 변경: " + (if b then "연결됨" else "연결 끊김")
    case SessionDeactivated => "세션 비활성화됨"
    case MessageReceived(json) => "Watch로부터 메시지 수신: " + json[..Min(50, |json|)] + "..."
    case TestStarting => "연결 테스트 시작..."
    case SessionRestarting => "세션 재시작 시도..."
    case TestSession(json) => "세션 상태: " + json
    case TestInstalled(b) => "Watch 앱 설치 재확인: " + BoolText(b)
    case TestReachable(b) => "연결 상태 재확인: " + BoolText(b)
    case TestFailed(e) => "연결 테스트 오류: " + e
  }

  /** The alerts the card raises; `Title` gives each one's title. */
  datatype Alert =
    | WatchUnreachable | AppMissing | Sent | SendFailed | SessionInactive
    | ConnectionOk | AppNeeded | ConnectionProblem | SessionProblem | TestError

  function Title(alert: Alert): string
  {
    match alert
    case WatchUnreachable => "Apple Watch 연결 불가 📱"
    case AppMissing => "Watch 앱 없음 💡"
    case Sent => "성공"
    case SendFailed => "오류"
    case SessionInactive => "알림"
    case ConnectionOk => "연결 성공! ✅"
    case AppNeeded => "Watch 앱 필요 📱"
    case ConnectionProblem => "연결 문제 ⚠️"
    case SessionProblem => "세션 문제 🔄"
    case TestError => "테스트 오류 ❌"
  }

  // ---------------------------------------------------------------------------
  // Status

  /** `getConnectionStatusIcon`: waiting for the session, then the missing app,
      then the lost connection, in that order of precedence. */
  function StatusIcon(sessionState: string, installed: bool, connected: bool): (icon: string)
    ensures sessionState != Activated ==> icon == "⏳"
    ensures sessionState == Activated && !installed ==> icon == "❌"
    ensures sessionState == Activated && installed && !connected ==> icon == "🔴"
    ensures sessionState == Activated && installed && connected ==> icon == "🟢"
  {
    if sessionState != Activated then "⏳"
    else if !installed then "❌"
    else if !connected then "🔴"
    else "🟢"
  }

  /** `getConnectionStatusText`: the same precedence, in words. */
  function StatusText(sessionState: string, installed: bool, connected: bool): (text: string)
    ensures sessionState != Activated ==> text == "세션 준비 중..."
    ensures sessionState == Activated && !installed ==> text == "Watch 앱 미설치 (HealthKit 사용 가능)"
    ensures sessionState == Activated && installed && !connected ==> text == "연결 안됨"
    ensures sessionState == Activated && installed && connected ==> text == "연결됨"
  {
    if sessionState != Activated then "세션 준비 중..."
    else if !installed then "Watch 앱 미설치 (HealthKit 사용 가능)"
    else if !connected then "연결 안됨"
    else "연결됨"
  }

  /** The request button is enabled only with an activated session, the app
      installed and the watch reachable. */
  predicate SyncEnabled(sessionState: string, installed: bool, connected: bool)
  {
    connected && installed && sessionState == Activated
  }

  /** The icon is green exactly when the request button is enabled, and the icon
      and the text always describe the same case. */
  lemma GreenIffSyncEnabled(sessionState: string, installed: bool, connected: bool)
    ensures StatusIcon(sessionState, installed, connected) == "🟢"
            <==> SyncEnabled(sessionState, installed, connected)
    ensures StatusIcon(sessionState, installed, connected) == "🟢"
            <==> StatusText(sessionState, installed, connected) == "연결됨"
    ensures StatusIcon(sessionState, installed, connected) == "⏳"
            <==> StatusText(sessionState, installed, connected) == "세션 준비 중..."
  {
  }

  // ---------------------------------------------------------------------------
  // The component state

  /** What the watch or the app hands to `onWatchDataReceived`. */
  datatype WatchPayload = FromWatch(message: string) | MockHealthData(timestamp: string)

  /** A native call's outcome. */
  datatype Query<T> = Answered(value: T) | Threw(error: string)

  /** What `getSessionState` reports: its JSON text and its activation state, ""
      when it has none. */
  datatype SessionInfo = SessionInfo(json: string, activationState: string)

  /** Everything but the debug log. */
  datatype WatchState = WatchState(
    isWatchConnected: bool,
    isWatchAppInstalled: bool,
    lastSyncTime: Option<string>,
    sessionState: string,
    delivered: seq<WatchPayload>,
    isInitialized: bool,
    mounted: bool,
    listeners: nat)

  /** What the initialisation logs while starting the session and reading its
      state. */
  function StartNotes(startError: Option<string>, session: Query<SessionInfo>): seq<Note>
  {
    [InitStarting,
     if startError.None? then SessionStarted else SessionStartFailed(startError.value),
     if session.Answered? then SessionRead(session.value.json) else SessionReadFailed(session.error)]
  }

  /** What the initialisation logs while querying the watch; it stops at the
      first query that throws. */
  function WatchNotes(installed: Query<bool>, reachable: Query<bool>): seq<Note>
  {
    if installed.Threw? then [InitFailed(installed.error)]
    else if reachable.Threw? then [AppInstalled(installed.value), InitFailed(reachable.error)]
    else [AppInstalled(installed.value), WatchReachable(reachable.value),
          if installed.value && reachable.value then SessionActivated
          else SessionNotActivated(installed.value, reachable.value)]
  }

  /** The connection test runs to its diagnosis only when no native call throws. */
  predicate TestCompletes(startError: Option<string>, session: Query<SessionInfo>,
                          installed: Query<bool>, reachable: Query<bool>)
  {
    startError.None? && session.Answered? && installed.Answered? && reachable.Answered?
  }

  /** The error of the first native call of the connection test that throws. */
  function FirstError(startError: Option<string>, session: Query<SessionInfo>,
                      installed: Query<bool>, reachable: Query<bool>): string
  {
    if startError.Some? then startError.value
    else if session.Threw? then session.error
    else if installed.Threw? then installed.error
    else if reachable.Threw? then reachable.error
    else ""
  }

  /** What the connection test logs after restarting the session, in order;
      it stops at the first native call that throws. */
  function ProbeNotes(startError: Option<string>, session: Query<SessionInfo>,
                      installed: Query<bool>, reachable: Query<bool>): seq<Note>
  {
    if startError.Some? || session.Threw? then [TestFailed(FirstError(startError, session, installed, reachable))]
    else if installed.Threw? then [TestSession(session.value.json), TestFailed(installed.error)]
    else if reachable.Threw? then [TestSession(session.value.json), TestInstalled(installed.value),
                                   TestFailed(reachable.error)]
    else [TestSession(session.value.json), TestInstalled(installed.value), TestReachable(reachable.value)]
  }

  /** The connection test's verdict. */
  function Diagnosis(activationState: string, installed: bool, reachable: bool): (a: Alert)
    ensures a == ConnectionOk <==> activationState == Activated && installed && reachable
    ensures a == SessionProblem <==> activationState != Activated
    ensures a == AppNeeded <==> activationState == Activated && !installed
    ensures a == ConnectionProblem <==> activationState == Activated && installed && !reachable
  {
    if activationState == Activated then
      if installed && reachable then ConnectionOk
      else if !installed then AppNeeded
      else ConnectionProblem
    else SessionProblem
  }

  /** The alert `sendMessageToWatch` raises. */
  function SendAlert(connected: bool, installed: bool, sendOk: bool): Alert
  {
    if !connected then WatchUnreachable
    else if !installed then AppMissing
    else if sendOk then Sent
    else SendFailed
  }

  class WatchConnectivity {
    var isWatchConnected: bool
    var isWatchAppInstalled: bool
    var lastSyncTime: Option<string>
    var sessionState: string
    /** `debugInfo`. */
    const log: DebugLog
    /** Every payload handed to `onWatchDataReceived`, in order. */
    var delivered: seq<WatchPayload>
    /** `isInitializedRef`. */
    var isInitialized: bool
    /** `isComponentMounted`. */
    var mounted: bool
    /** How many event listeners are registered. */
    var listeners: nat

    ghost predicate Valid()
      reads this, log
    {
      log.Valid()
    }

    function State(): WatchState
      reads this
    {
      WatchState(isWatchConnected, isWatchAppInstalled, lastSyncTime, sessionState, delivered,
                 isInitialized, mounted, listeners)
    }

    constructor ()
      ensures Valid() && fresh(log) && log.entries == [] && log.history == []
      ensures State() == WatchState(false, false, None, NotActivated, [], false, false, 0)
    {
      isWatchConnected := false;
      isWatchAppInstalled := false;
      lastSyncTime := None;
      sessionState := NotActivated;
      log := new DebugLog();
      delivered := [];
      isInitialized := false;
      mounted := false;
      listeners := 0;
    }

    /** The first half of the initialisation: starts the session, reads its
        state and adopts a reported activation state. */
    method StartAndReadSession(time: string, startError: Option<string>, session: Query<SessionInfo>)
      modifies this, log
      requires Valid()
      ensures Valid()
      ensures log.history == old(log.history) + Stamped(time, StartNotes(startError, session))
      ensures State() == old(State()).(sessionState := if session.Answered? && session.value.activationState != ""
                                                       then session.value.activationState
                                                       else old(sessionState))
    {
      log.Add(InitStarting, time);
      var note := if startError.None? then SessionStarted else SessionStartFailed(startError.value);
      log.Add(note, time);
      var last := if session.Answered? then SessionRead(session.value.json) else SessionReadFailed(session.error);
      if session.Answered? && session.value.activationState != "" {
        sessionState := session.value.activationState;
      }
      log.Add(last, time);
      StampedThree(time, InitStarting, note, last);
    }

    /** The second half of the initialisation: records whether the app is
        installed and then whether the watch is reachable, stopping at the first
        of these queries that throws, and activates the session when both hold. */
    method CheckWatch(time: string, installed: Query<bool>, reachable: Query<bool>)
      modifies this, log
      requires Valid()
      ensures Valid()
      ensures log.history == old(log.history) + Stamped(time, WatchNotes(installed, reachable))
      ensures installed.Threw? ==> State() == old(State())
      ensures installed.Answered? && reachable.Threw? ==>
                State() == old(State()).(isWatchAppInstalled := installed.value)
      ensures installed.Answered? && reachable.Answered? ==>
                State() == old(State()).(isWatchAppInstalled := installed.value,
                                         isWatchConnected := reachable.value,
                                         sessionState := if installed.value && reachable.value then Activated
                                                         else old(sessionState))
    {
      if installed.Threw? {
        log.Add(InitFailed(installed.error), time);
        StampedOne(time, InitFailed(installed.error));
        return;
      }
      isWatchAppInstalled := installed.value;
      log.Add(AppInstalled(installed.value), time);
      if reachable.Threw? {
        log.Add(InitFailed(reachable.error), time);
        StampedTwo(time, AppInstalled(installed.value), InitFailed(reachable.error));
        return;
      }
      isWatchConnected := reachable.value;
      log.Add(WatchReachable(reachable.value), time);
      var last;
      if installed.value && reachable.value {
        sessionState := Activated;
        last := SessionActivated;
      } else {
        last := SessionNotActivated(installed.value, reachable.value);
      }
      log.Add(last, time);
      StampedThree(time, AppInstalled(installed.value), WatchReachable(reachable.value), last);
    }

    /** The mount effect: runs at most once. It starts the session, adopts the
        reported activation state, records whether the app is installed and the
        watch reachable (stopping at the first of these two queries that throws),
        activates the session when both hold, and registers the session,
        reachability and message listeners. */
    method Initialize(time: string, startError: Option<string>, session: Query<SessionInfo>,
                      installed: Query<bool>, reachable: Query<bool>)
      modifies this, log
      requires Valid()
      ensures Valid()
      ensures old(isInitialized) ==> State() == old(State()) && log.history == old(log.history)
      ensures !old(isInitialized) ==>
                isInitialized && mounted && listeners == 3
                && delivered == old(delivered) && lastSyncTime == old(lastSyncTime)
                && log.history == old(log.history) + Stamped(time, StartNotes(startError, session)
                                                                   + WatchNotes(installed, reachable))
                && isWatchAppInstalled == (if installed.Answered? then installed.value else old(isWatchAppInstalled))
                && isWatchConnected == (if installed.Answered? && reachable.Answered? then reachable.value
                                        else old(isWatchConnected))
                && sessionState == (if installed.Answered? && reachable.Answered?
                                       && installed.value && reachable.value then Activated
                                    else if session.Answered? && session.value.activationState != ""
                                    then session.value.activationState
                                    else old(sessionState))
    {
      if isInitialized {
        return;
      }
      isInitialized := true;
      mounted := true;
      StartAndReadSession(time, startError, session);
      CheckWatch(time, installed, reachable);
      listeners := 3;
      StampedAppend(time, StartNotes(startError, session), WatchNotes(installed, reachable));
    }

    /** The session listener: once unmounted it does nothing; otherwise it logs
        the event and adopts its activation state when it carries one. */
    method OnSession(time: string, data: SessionInfo)
      modifies this, log
      requires Valid()
      ensures Valid()
      ensures !old(mounted) ==> State() == old(State()) && log.history == old(log.history)
      ensures old(mounted) ==>
                log.history == old(log.history) + [LogEntry(time, SessionChanged(data.json))]
                && State() == old(State()).(sessionState := if data.activationState != ""
                                                            then data.activationState
                                                            else old(sessionState))
    {
      if mounted {
        log.Add(SessionChanged(data.json), time);
        if data.activationState != "" {
          sessionState := data.activationState;
        }
      }
    }

    /** The reachability listener: once unmounted it does nothing; otherwise the
        connection flag follows the event and the session is activated when the
        watch is reachable and deactivated when it is not. */
    method OnReachability(time: string, reachable: bool)
      modifies this, log
      requires Valid()
      ensures Valid()
      ensures !old(mounted) ==> State() == old(State()) && log.history == old(log.history)
      ensures old(mounted) ==>
                State() == old(State()).(isWatchConnected := reachable,
                                         sessionState := if reachable then Activated else NotActivated)
                && log.history == old(log.history)
                                  + [LogEntry(time, ReachabilityChanged(reachable)),
                                     LogEntry(time, if reachable then SessionActivated else SessionDeactivated)]
    {
      if mounted {
        isWatchConnected := reachable;
        log.Add(ReachabilityChanged(reachable), time);
        if reachable {
          sessionState := Activated;
          log.Add(SessionActivated, time);
        } else {
          sessionState := NotActivated;
          log.Add(SessionDeactivated, time);
        }
      }
    }

    /** The message listener: once unmounted it does nothing; otherwise it logs
        the start of the message, hands it on and records the sync time. */
    method OnMessage(time: string, now: string, messageJson: string)
      modifies this, log
      requires Valid()
      ensures Valid()
      ensures !old(mounted) ==> State() == old(State()) && log.history == old(log.history)
      ensures old(mounted) ==>
                State() == old(State()).(delivered := old(delivered) + [FromWatch(messageJson)],
                                         lastSyncTime := Some(now))
                && log.history == old(log.history) + [LogEntry(time, MessageReceived(messageJson))]
    {
      if mounted {
        log.Add(MessageReceived(messageJson), time);
        delivered := delivered + [FromWatch(messageJson)];
        lastSyncTime := Some(now);
      }
    }

    /** The effect's cleanup: marks the component unmounted and removes the
        listeners. */
    method Cleanup()
      modifies this
      ensures State() == old(State()).(mounted := false, listeners := 0)
    {
      mounted := false;
      listeners := 0;
    }

    /** `sendMessageToWatch`: alerts without sending unless the watch is connected
        and the app installed; when the message is sent, mock health data is handed
        on and the sync time recorded. */
    method SendMessageToWatch(now: string, sendOk: bool) returns (alert: Alert)
      modifies this
      ensures !old(isWatchConnected) ==> alert == WatchUnreachable && State() == old(State())
      ensures old(isWatchConnected) && !old(isWatchAppInstalled) ==>
                alert == AppMissing && State() == old(State())
      ensures old(isWatchConnected) && old(isWatchAppInstalled) && sendOk ==>
                alert == Sent
                && State() == old(State()).(delivered := old(delivered) + [MockHealthData(now)],
                                            lastSyncTime := Some(now))
      ensures old(isWatchConnected) && old(isWatchAppInstalled) && !sendOk ==>
                alert == SendFailed && State() == old(State())
    {
      if !isWatchConnected {
        return WatchUnreachable;
      }
      if !isWatchAppInstalled {
        return AppMissing;
      }
      if sendOk {
        delivered := delivered + [MockHealthData(now)];
        lastSyncTime := Some(now);
        alert := Sent;
      } else {
        alert := SendFailed;
      }
    }

    /** `requestWatchData`: only alerts unless the session is activated, and
        otherwise sends the message. */
    method RequestWatchData(now: string, sendOk: bool) returns (alert: Alert)
      modifies this
      ensures old(sessionState) != Activated ==> alert == SessionInactive && State() == old(State())
      ensures old(sessionState) == Activated ==>
                alert == SendAlert(old(isWatchConnected), old(isWatchAppInstalled), sendOk)
                && State() == if old(isWatchConnected) && old(isWatchAppInstalled) && sendOk
                              then old(State()).(delivered := old(delivered) + [MockHealthData(now)],
                                                 lastSyncTime := Some(now))
                              else old(State())
    {
      if sessionState != Activated {
        return SessionInactive;
      }
      alert := SendMessageToWatch(now, sendOk);
    }

    /** `testWatchConnection`: logs its start and the session restart, then
        probes the connection. */
    method TestWatchConnection(time: string, startError: Option<string>, session: Query<SessionInfo>,
                               installed: Query<bool>, reachable: Query<bool>) returns (alert: Alert)
      modifies this, log
      requires Valid()
      ensures Valid()
      ensures log.history == old(log.history)
                             + Stamped(time, [TestStarting, SessionRestarting]
                                             + ProbeNotes(startError, session, installed, reachable))
      ensures !TestCompletes(startError, session, installed, reachable) ==>
                alert == TestError && State() == old(State())
      ensures TestCompletes(startError, session, installed, reachable) ==>
                alert == Diagnosis(session.value.activationState, installed.value, reachable.value)
                && State() == old(State()).(isWatchAppInstalled := installed.value,
                                            isWatchConnected := reachable.value,
                                            sessionState := if session.value.activationState != ""
                                                            then session.value.activationState
                                                            else old(sessionState))
      ensures alert == ConnectionOk ==> SyncEnabled(sessionState, isWatchAppInstalled, isWatchConnected)
    {
      log.Add(TestStarting, time);
      log.Add(SessionRestarting, time);
      StampedTwo(time, TestStarting, SessionRestarting);
      alert := Probe(time, startError, session, installed, reachable);
      StampedAppend(time, [TestStarting, SessionRestarting], ProbeNotes(startError, session, installed, reachable));
    }

    /** The rest of the connection test: logs each answer, diagnoses the
        connection, then adopts the installed and reachable answers and any
        reported activation state. The first native call that throws ends the
        test with an error alert and no state change. */
    method Probe(time: string, startError: Option<string>, session: Query<SessionInfo>,
                 installed: Query<bool>, reachable: Query<bool>) returns (alert: Alert)
      modifies this, log
      requires Valid()
      ensures Valid()
      ensures log.history == old(log.history) + Stamped(time, ProbeNotes(startError, session, installed, reachable))
      ensures !TestCompletes(startError, session, installed, reachable) ==>
                alert == TestError && State() == old(State())
      ensures TestCompletes(startError, session, installed, reachable) ==>
                alert == Diagnosis(session.value.activationState, installed.value, reachable.value)
                && State() == old(State()).(isWatchAppInstalled := installed.value,
                                            isWatchConnected := reachable.value,
                                            sessionState := if session.value.activationState != ""
                                                            then session.value.activationState
                                                            else old(sessionState))
    {
      alert := TestError;
      if startError.Some? || session.Threw? {
        log.Add(TestFailed(FirstError(startError, session, installed, reachable)), time);
        StampedOne(time, TestFailed(FirstError(startError, session, installed, reachable)));
        return;
      }
      log.Add(TestSession(session.value.json), time);
      if installed.Threw? {
        log.Add(TestFailed(installed.error), time);
        StampedTwo(time, TestSession(session.value.json), TestFailed(installed.error));
        return;
      }
      log.Add(TestInstalled(installed.value), time);
      if reachable.Threw? {
        log.Add(TestFailed(reachable.error), time);
        StampedThree(time, TestSession(session.value.json), TestInstalled(installed.value),
                     TestFailed(reachable.error));
        return;
      }
      log.Add(TestReachable(reachable.value), time);
      StampedThree(time, TestSession(session.value.json), TestInstalled(installed.value),
                   TestReachable(reachable.value));
      alert := Diagnosis(session.value.activationState, installed.value, reachable.value);
      isWatchAppInstalled := installed.value;
      isWatchConnected := reachable.value;
      if session.value.activationState != "" {
        sessionState := session.value.activationState;
      }
    }

    /** The request button: disabled unless syncing is enabled; when it is, a
        successful send always hands the mock data on, as every guard behind the
        button already holds. */
    method PressSync(now: string, sendOk: bool) returns (alert: Option<Alert>)
      modifies this
      ensures !SyncEnabled(old(sessionState), old(isWatchAppInstalled), old(isWatchConnected)) ==>
                alert.None? && State() == old(State())
      ensures SyncEnabled(old(sessionState), old(isWatchAppInstalled), old(isWatchConnected)) ==>
                alert == Some(if sendOk then Sent else SendFailed)
                && State() == if sendOk
                              then old(State()).(delivered := old(delivered) + [MockHealthData(now)],
                                                 lastSyncTime := Some(now))
                              else old(State())
    {
      if !SyncEnabled(sessionState, isWatchAppInstalled, isWatchConnected) {
        return None;
      }
      var a := RequestWatchData(now, sendOk);
      alert := Some(a);
    }
  }

  /** The initialisation guard outlives a cleanup: an effect that runs again after
      it registers nothing, so later events are ignored. */
  method RemountStaysDeaf() returns (connected: bool)
    ensures !connected
  {
    var w := new WatchConnectivity();
    w.Initialize("t", None, Answered(SessionInfo("{}", "")), Answered(true), Answered(false));
    w.Cleanup();
    w.Initialize("t", None, Answered(SessionInfo("{}", "")), Answered(true), Answered(false));
    w.OnReachability("t", true);
    connected := w.isWatchConnected;
  }
}
