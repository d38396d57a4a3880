/**
 * Down and recovery alerts of a monitored host: which checks announce, over histories of checks, mute
 * windows, and the resets that a changed measurement or upstream causes.
 */
module AlertCooldown {
  import opened Wrappers

  const ALERT_COOLDOWN_MS := 5 * 60 * 1000

  datatype Health = Up | Down | Unknown

  /** One persisted check, with the settings and mute window in force at that moment. */
  datatype Check = Check(state: Health, at: int, enabled: bool, muted: bool)

  /** A reset clears the alert columns without any check. */
  datatype Entry = Checked(check: Check) | Reset

  /** The monitor row's last_alert_state and last_alert_at. */
  datatype Memory = Memory(state: Option<Health>, at: Option<int>)
  datatype Decision = Decision(send: bool, memory: Memory)

  function DecideAlert(m: Memory, c: Check): Decision {
    if !c.enabled then Decision(false, Memory(None, None))
    else if c.state == Unknown then Decision(false, m)
    else if m.state.None? && c.state == Up then Decision(false, Memory(Some(Up), None))
    else if m.state != Some(c.state) && (m.at.None? || c.at - m.at.value >= ALERT_COOLDOWN_MS) then
      Decision(true, Memory(Some(c.state), Some(c.at)))
    else Decision(false, m)
  }

  /** persistCheck: a muted check announces nothing and remembers nothing. */
  function Persisted(m: Memory, e: Entry): Memory {
    if e.Reset? then Memory(None, None) else if e.check.muted then m else DecideAlert(m, e.check).memory
  }

  function MemoryAfter(h: seq<Entry>): Memory
    decreases |h|
  {
    if |h| == 0 then Memory(None, None) else Persisted(MemoryAfter(h[..|h| - 1]), h[|h| - 1])
  }

  /** Whether entry i of the history sends an alert. */
  predicate Sends(h: seq<Entry>, i: nat)
    requires i < |h|
  {
    h[i].Checked? && !h[i].check.muted && DecideAlert(MemoryAfter(h[..i]), h[i].check).send
  }

  // ---------- What the alerts should be ----------

  /** Switching alerts off, or a reset, forgets every earlier announcement. */
  predicate Forgets(e: Entry) {
    e.Reset? || (!e.check.muted && !e.check.enabled)
  }

  /** An unmuted check with alerts on that sees the host up or down. */
  predicate Eligible(e: Entry) {
    e.Checked? && !e.check.muted && e.check.enabled && e.check.state != Unknown
  }

  /** Reference definition by the previous announcement alone, without any remembered state. */
  predicate Announces(h: seq<Entry>, i: nat)
    requires i < |h|
    decreases i, 1
  {
    var last := LastAnnounced(h, i);
    && Eligible(h[i])
    && (if last.None? then h[i].check.state == Down else Eligible(h[last.value]) && Follows(h[last.value].check, h[i].check))
  }

  /** The opposite state, once the cooldown is over. */
  predicate Follows(previous: Check, c: Check) {
    c.state != previous.state && c.at - previous.at >= ALERT_COOLDOWN_MS
  }

  function LastAnnounced(h: seq<Entry>, n: nat): (r: Option<nat>)
    requires n <= |h|
    ensures r.Some? ==> r.value < n
    decreases n, 0
  {
    if n == 0 || Forgets(h[n - 1]) then None
    else if Announces(h, n - 1) then Some(n - 1)
    else LastAnnounced(h, n - 1)
  }

  /** The two remembered columns say exactly what the last announcement was. */
  ghost predicate Remembers(m: Memory, h: seq<Entry>, n: nat)
    requires n <= |h|
  {
    var last := LastAnnounced(h, n);
    if last.Some? then Eligible(h[last.value]) && m == Memory(Some(h[last.value].check.state), Some(h[last.value].check.at))
    else m.at.None? && (m.state.None? || m.state == Some(Up))
  }

  lemma {:induction false} MemoryIsLastAnnouncement(h: seq<Entry>, n: nat)
    requires n <= |h|
    ensures Remembers(MemoryAfter(h[..n]), h, n)
  {
    if n > 0 {
      MemoryIsLastAnnouncement(h, n - 1);
      assert h[..n][..n - 1] == h[..n - 1];
    }
  }

  /** For every history, with any mute windows, settings and resets, the sent alerts are the reference ones. */
  lemma SendsAreAnnouncements(h: seq<Entry>, i: nat)
    requires i < |h|
    ensures Sends(h, i) <==> Announces(h, i)
    ensures Sends(h, i) ==> Eligible(h[i])
  {
    MemoryIsLastAnnouncement(h, i);
  }

  /** Some entry strictly between j and i forgets. */
  ghost predicate ForgottenBetween(h: seq<Entry>, j: nat, i: nat)
    requires i <= |h|
  {
    exists k :: j < k < i && Forgets(h[k])
  }

  ghost predicate QuietBetween(h: seq<Entry>, j: nat, i: nat)
    requires i <= |h|
  {
    forall k | j < k < i :: !Sends(h, k)
  }

  lemma {:induction false} LastStays(h: seq<Entry>, j: nat, n: nat)
    requires j < n <= |h| && Announces(h, j) && QuietBetween(h, j, n)
    ensures LastAnnounced(h, n) == if ForgottenBetween(h, j, n) then None else Some(j)
    decreases n
  {
    if n > j + 1 {
      SendsAreAnnouncements(h, n - 1);
      LastStays(h, j, n - 1);
      assert ForgottenBetween(h, j, n) <==> ForgottenBetween(h, j, n - 1) || Forgets(h[n - 1]);
    }
  }

  /** Whether the next alert keeps both promises: the opposite state, and the cooldown. */
  predicate Promised(h: seq<Entry>, j: nat, i: nat)
    requires j < |h| && i < |h| && h[j].Checked? && h[i].Checked?
  {
    Follows(h[j].check, h[i].check)
  }

  /**
   * Two consecutive alerts keep both promises when nothing was forgotten in between. When something was,
   * the later one is a down alert: they alternate exactly if the earlier one was an up alert, and keep
   * the cooldown exactly if they happen to be that far apart.
   */
  lemma ConsecutiveAlerts(h: seq<Entry>, j: nat, i: nat)
    requires j < i < |h| && Sends(h, j) && Sends(h, i) && QuietBetween(h, j, i)
    ensures h[j].check.state != Unknown && h[i].check.state != Unknown
    ensures ForgottenBetween(h, j, i) ==> h[i].check.state == Down
    ensures Promised(h, j, i) <==>
              (ForgottenBetween(h, j, i) ==> h[j].check.state == Up && h[i].check.at - h[j].check.at >= ALERT_COOLDOWN_MS)
  {
    SendsAreAnnouncements(h, j);
    SendsAreAnnouncements(h, i);
    LastStays(h, j, i);
  }

  /** The first alert, and the first after something was forgotten, is a down alert. */
  lemma FirstAlertIsDown(h: seq<Entry>, from: nat, i: nat)
    requires from <= i < |h| && (from == 0 || Forgets(h[from - 1]))
    requires Sends(h, i) && forall k | from <= k < i :: !Sends(h, k)
    ensures h[i].check.state == Down
  {
    SendsAreAnnouncements(h, i);
    NoneSince(h, from, i);
  }

  lemma {:induction false} NoneSince(h: seq<Entry>, from: nat, n: nat)
    requires from <= n <= |h| && (from == 0 || Forgets(h[from - 1]))
    requires forall k | from <= k < n :: !Sends(h, k)
    ensures LastAnnounced(h, n).None?
    decreases n
  {
    if n > from {
      SendsAreAnnouncements(h, n - 1);
      NoneSince(h, from, n - 1);
    }
  }

  /**
   * A change held back by the cooldown or a mute window is announced by the first later check that is
   * unmuted, past the cooldown and still sees it, exactly unless it is a recovery and something was
   * forgotten in between.
   */
  lemma DelayedChangeIsAnnounced(h: seq<Entry>, j: nat, i: nat)
    requires j < i < |h| && Sends(h, j) && QuietBetween(h, j, i)
    requires h[i].Checked? && !h[i].check.muted && h[i].check.enabled && h[i].check.state != Unknown
    requires h[i].check.state != h[j].check.state && h[i].check.at - h[j].check.at >= 5 * 60 * 1000
    ensures Sends(h, i) <==> !ForgottenBetween(h, j, i) || h[i].check.state == Down
  {
    SendsAreAnnouncements(h, j);
    SendsAreAnnouncements(h, i);
    LastStays(h, j, i);
  }

  /** Without forgetting, nothing is announced before that check. */
  lemma {:induction false} NothingEarlier(h: seq<Entry>, j: nat, n: nat)
    requires j < n <= |h| && Sends(h, j) && !ForgottenBetween(h, j, n)
    requires forall k | j < k < n && Eligible(h[k]) :: !Promised(h, j, k)
    ensures QuietBetween(h, j, n)
    decreases n
  {
    if n > j + 1 {
      NothingEarlier(h, j, n - 1);
      SendsAreAnnouncements(h, j);
      SendsAreAnnouncements(h, n - 1);
      LastStays(h, j, n - 1);
    }
  }

  // ---------- Whole histories ----------

  /** Alerts begin with a down alert, alternate, and keep the cooldown. */
  ghost predicate WellPaced(h: seq<Entry>) {
    && (forall i | 0 <= i < |h| && Sends(h, i) && (forall k | 0 <= k < i :: !Sends(h, k)) :: h[i].check.state == Down)
    && (forall j, i | 0 <= j < i < |h| && Sends(h, j) && Sends(h, i) && QuietBetween(h, j, i) :: Promised(h, j, i))
  }

  /** A pair of consecutive alerts that only a forgotten memory lets through. */
  ghost predicate Disrupted(h: seq<Entry>, j: nat, i: nat) {
    && j < i < |h| && Sends(h, j) && Sends(h, i) && QuietBetween(h, j, i) && ForgottenBetween(h, j, i)
    && (h[j].check.state == Down || h[i].check.at - h[j].check.at < ALERT_COOLDOWN_MS)
  }

  /**
   * For every history: alerts go down, up, down ... at least the cooldown apart exactly unless two
   * consecutive ones have a reset or a switching off between them, and the earlier is a down alert or
   * less than the cooldown old.
   */
  lemma WellPacedIffUndisrupted(h: seq<Entry>)
    ensures WellPaced(h) <==> forall j, i :: !Disrupted(h, j, i)
  {
    forall i | 0 <= i < |h| && Sends(h, i) && (forall k | 0 <= k < i :: !Sends(h, k)) ensures h[i].check.state == Down {
      FirstAlertIsDown(h, 0, i);
    }
    forall j: nat, i: nat | j < i < |h| && Sends(h, j) && Sends(h, i) && QuietBetween(h, j, i)
      ensures Promised(h, j, i) <==> !Disrupted(h, j, i)
    {
      ConsecutiveAlerts(h, j, i);
    }
    hide Sends, QuietBetween, ForgottenBetween, Promised;
  }

  function Alerted(state: Health, at: int): Entry {
    Checked(Check(state, at, true, false))
  }

  /** A reset lets the same outage be announced twice within milliseconds, and loses a held-back recovery. */
  lemma ResetDisrupts()
    ensures var h := [Alerted(Down, 0), Reset, Alerted(Down, 2)];
            Sends(h, 0) && Sends(h, 2) && Disrupted(h, 0, 2)
    ensures var h := [Alerted(Down, 0), Alerted(Up, 1), Reset, Alerted(Up, ALERT_COOLDOWN_MS)];
            Sends(h, 0) && !Sends(h, 1) && !Sends(h, 3) && Follows(h[0].check, h[3].check)
  {
    var h := [Alerted(Down, 0), Reset, Alerted(Down, 2)];
    assert h[..0] == [] && h[..1] == [h[0]] && h[..2] == [h[0], Reset] && [h[0], Reset][..1] == [h[0]] && [h[0]][..0] == [];
    assert MemoryAfter([h[0]]) == Persisted(MemoryAfter([]), h[0]);
    assert MemoryAfter([h[0], Reset]) == Memory(None, None);
    assert Forgets(h[1]);
    var g := [Alerted(Down, 0), Alerted(Up, 1), Reset, Alerted(Up, ALERT_COOLDOWN_MS)];
    assert g[..0] == [] && g[..1] == [g[0]] && g[..3][..2] == g[..2];
    assert MemoryAfter(g[..3]) == Memory(None, None);
  }

  datatype Alert = Alert(state: Health, at: int)

  function Sent(h: seq<Entry>): seq<Alert>
    decreases |h|
  {
    if |h| == 0 then []
    else
      var n := |h| - 1;
      Sent(h[..n]) + if Sends(h, n) then [Alert(h[n].check.state, h[n].check.at)] else []
  }

  ghost predicate Alternates(sent: seq<Alert>) {
    && (forall k | 0 <= k < |sent| :: sent[k].state == if k % 2 == 0 then Down else Up)
    && (forall k | 0 < k < |sent| :: sent[k].at - sent[k - 1].at >= ALERT_COOLDOWN_MS)
  }

  lemma AlternatesSnoc(sent: seq<Alert>, a: Alert)
    requires Alternates(sent)
    requires a.state == if |sent| % 2 == 0 then Down else Up
    requires |sent| > 0 ==> a.at - sent[|sent| - 1].at >= ALERT_COOLDOWN_MS
    ensures Alternates(sent + [a])
  {
  }

  ghost predicate LastIs(m: Memory, sent: seq<Alert>) {
    if sent == [] then m.at.None? && (m.state.None? || m.state == Some(Up))
    else m == Memory(Some(sent[|sent| - 1].state), Some(sent[|sent| - 1].at))
  }

  function SentBy(m: Memory, c: Check): seq<Alert> {
    if !c.muted && DecideAlert(m, c).send then [Alert(c.state, c.at)] else []
  }

  lemma SentStep(m: Memory, sent: seq<Alert>, c: Check)
    requires LastIs(m, sent) && Alternates(sent) && !Forgets(Checked(c))
    ensures Alternates(sent + SentBy(m, c)) && LastIs(Persisted(m, Checked(c)), sent + SentBy(m, c))
  {
    if SentBy(m, c) == [] {
      assert sent + SentBy(m, c) == sent;
    } else {
      assert |sent| > 0 ==> sent[|sent| - 1].state == if |sent| % 2 == 0 then Up else Down;
      AlternatesSnoc(sent, Alert(c.state, c.at));
    }
    hide Alternates;
  }

  /** In particular, without resets and with alerts left on the list of alerts reads down, up, down, up ... */
  lemma {:induction false} AlertsAlternate(h: seq<Entry>)
    requires forall e | e in h :: !Forgets(e)
    ensures Alternates(Sent(h))
    ensures LastIs(MemoryAfter(h), Sent(h))
    decreases |h|
  {
    if |h| > 0 {
      var n := |h| - 1;
      AlertsAlternate(h[..n]);
      assert h[n] in h && !Forgets(h[n]) && h[n].Checked?;
      hide Alternates, LastIs, Forgets, DecideAlert;
      SentStep(MemoryAfter(h[..n]), Sent(h[..n]), h[n].check);
      assert h[n] == Checked(h[n].check) && Sent(h) == Sent(h[..n]) + SentBy(MemoryAfter(h[..n]), h[n].check);
    }
  }

  // ---------- The monitor row ----------

  lemma PersistedEntry(h: seq<Entry>, e: Entry)
    ensures MemoryAfter(h + [e]) == Persisted(MemoryAfter(h), e)
    ensures e.Checked? ==> (Announces(h + [e], |h|) <==> DecideAlert(MemoryAfter(h), e.check).send && !e.check.muted)
  {
    var all := h + [e];
    assert all[..|h|] == h;
    SendsAreAnnouncements(all, |h|);
    hide Announces, LastAnnounced;
  }

  /** What is measured (type, path, expected status, certificate rules) and how often, as opaque values. */
  datatype Settings = Settings(measurement: nat, timing: nat, enabled: bool, alertEnabled: bool)

  class MonitorRow {
    var settings: Settings
    var lastAlertState: Option<Health>
    var lastAlertAt: Option<int>
    ghost var history: seq<Entry>

    ghost predicate Valid()
      reads this
    {
      Memory(lastAlertState, lastAlertAt) == MemoryAfter(history)
    }

    constructor (initial: Settings)
      ensures Valid() && history == [] && settings == initial
    {
      settings, lastAlertState, lastAlertAt, history := initial, None, None, [];
    }

    /** Decide, remember unless muted, and report whether the alert goes out; a disabled monitor drops the check. */
    method PersistCheck(state: Health, at: int, muted: bool) returns (announced: bool)
      requires Valid()
      modifies this
      ensures Valid() && settings == old(settings)
      ensures history == old(history) + if settings.enabled then [Checked(Check(state, at, settings.alertEnabled, muted))] else []
      ensures announced <==> settings.enabled && Announces(history, |history| - 1)
      ensures muted || !settings.enabled || (settings.alertEnabled && state == Unknown) ==>
                !announced && lastAlertState == old(lastAlertState) && lastAlertAt == old(lastAlertAt)
      ensures settings.enabled && !muted && !settings.alertEnabled ==> !announced && lastAlertState.None? && lastAlertAt.None?
      ensures announced ==> lastAlertState == Some(state) && lastAlertAt == Some(at)
      ensures settings.enabled && !muted && settings.alertEnabled && state != Unknown
              && old(lastAlertState).Some? && old(lastAlertState) != Some(state) && old(lastAlertAt).Some? ==>
                (announced <==> at - old(lastAlertAt).value >= 5 * 60 * 1000)
    {
      hide Announces, MemoryAfter;
      if !settings.enabled {
        return false;
      }
      var c := Check(state, at, settings.alertEnabled, muted);
      PersistedEntry(history, Checked(c));
      var alert := DecideAlert(Memory(lastAlertState, lastAlertAt), c);
      if !c.muted {
        lastAlertState, lastAlertAt := alert.memory.state, alert.memory.at;
      }
      announced := alert.send && !c.muted;
      history := history + [Checked(c)];
    }

    /** A changed measurement, or switching checks or alerts on or off, is a reset; other edits are none. */
    method Update(next: Settings)
      requires Valid()
      modifies this
      ensures Valid() && settings == next
      ensures history == old(history) + if next.(timing := old(settings).timing) == old(settings) then [] else [Reset]
    {
      hide MemoryAfter;
      var restart := settings.measurement != next.measurement || settings.enabled != next.enabled;
      if restart || settings.alertEnabled != next.alertEnabled {
        PersistedEntry(history, Reset);
        lastAlertState, lastAlertAt := None, None;
        history := history + [Reset];
      }
      settings := next;
    }

    /** The upstream changed: its certificate exception is withdrawn, and one that cannot be probed is disabled. */
    method ResetHost(withdrawn: nat, unsupported: bool)
      requires Valid()
      modifies this
      ensures Valid() && history == old(history) + [Reset]
      ensures settings == old(settings).(measurement := withdrawn, enabled := old(settings).enabled && !unsupported)
    {
      hide MemoryAfter;
      PersistedEntry(history, Reset);
      settings := settings.(measurement := withdrawn);
      if unsupported {
        settings := settings.(enabled := false);
      }
      lastAlertState, lastAlertAt := None, None;
      history := history + [Reset];
    }
  }
}
