/**
 The three systemd units the tool writes, line by line, and what a reader of such a file
 finds in it.
 */
module Units {
  import opened Text

  const MARKER := "# Managed by " + "sshappy-tune"

  function Setting(key: string, value: string): string {
    key + "=" + value
  }

  function ApplyLines(binary: string): seq<string> {
    [MARKER,
     "[Unit]",
     Setting("Description", "Reconcile " + "sshappy-tune " + "host network " + "profile"),
     Setting("Wants", "network-" + "online.target"),
     Setting("After", "systemd-" + "sysctl.service " + "network-" + "online.target"),
     Setting("ConditionPathExists", "/etc/" + "sshappy-tune/" + "profile.json"),
     "",
     "[Service]",
     Setting("Type", "oneshot"),
     Setting("ExecStart", binary + " reconcile --confirm"),
     Setting("TimeoutStartSec", "60"),
     Setting("UMask", "0077"),
     Setting("NoNewPrivileges", "yes"),
     Setting("PrivateTmp", "yes"),
     Setting("ProtectHome", "yes"),
     "",
     "[Install]",
     Setting("WantedBy", "multi-user.target")]
  }

  function VerifyLines(binary: string): seq<string> {
    [MARKER,
     "[Unit]",
     Setting("Description", "Verify " + "sshappy-tune " + "host network " + "profile"),
     Setting("After", "network-" + "online.target"),
     "",
     "[Service]",
     Setting("Type", "oneshot"),
     Setting("ExecStart", binary + " verify"),
     Setting("TimeoutStartSec", "45"),
     Setting("NoNewPrivileges", "yes"),
     Setting("PrivateTmp", "yes"),
     Setting("ProtectHome", "yes"),
     Setting("ProtectSystem", "strict"),
     Setting("ProtectKernelTunables", "yes")]
  }

  function TimerLines(): seq<string> {
    [MARKER,
     "[Unit]",
     Setting("Description", "Periodic " + "sshappy-tune " + "verification"),
     "",
     "[Timer]",
     Setting("OnBootSec", "10min"),
     Setting("OnUnitActiveSec", "6h"),
     Setting("RandomizedDelaySec", "10min"),
     Setting("Persistent", "yes"),
     Setting("Unit", "sshappy-tune-" + "verify.service"),
     "",
     "[Install]",
     Setting("WantedBy", "timers.target")]
  }

  function ApplyUnit(binary: string): string {
    Lines(ApplyLines(binary))
  }

  function VerifyUnit(binary: string): string {
    Lines(VerifyLines(binary))
  }

  function VerifyTimer(): string {
    Lines(TimerLines())
  }

  // Every line ends in a line feed.
  function Lines(lines: seq<string>): string {
    if lines == [] then "" else lines[0] + "\n" + Lines(lines[1..])
  }

  // The marker comes first.
  lemma MarkerLeads(binary: string)
    ensures MARKER <= ApplyUnit(binary) && MARKER <= VerifyUnit(binary) && MARKER <= VerifyTimer()
  {
    hide Setting, MARKER;
    FirstLineLeads(ApplyLines(binary));
    FirstLineLeads(VerifyLines(binary));
    FirstLineLeads(TimerLines());
  }

  lemma FirstLineLeads(lines: seq<string>)
    requires lines != []
    ensures lines[0] <= Lines(lines)
  {
  }

  // ---------- reading a unit ----------

  // The values that the lines give a setting, in their order.
  function Settings(lines: seq<string>, key: string): seq<string> {
    if lines == [] then []
    else if HasPrefix(lines[0], key + "=") then [lines[0][|key| + 1..]] + Settings(lines[1..], key)
    else Settings(lines[1..], key)
  }

  predicate OneLine(s: string) {
    '\n' !in s && '\r' !in s
  }

  lemma {:induction false} ScanText(lines: seq<string>)
    requires forall i | 0 <= i < |lines| :: OneLine(lines[i])
    ensures ScanLines(Lines(lines)) == lines
  {
    hide ScanLines;
    if lines == [] {
      assert ScanLines("") == [] by { NoLines(); }
    } else {
      ScanText(lines[1..]);
      ScanOneLine(lines[0], Lines(lines[1..]));
      assert OneLine(lines[0]);
    }
  }

  lemma NoLines()
    ensures ScanLines("") == []
  {
  }

  lemma SettingIsOneLine(key: string, value: string)
    requires OneLine(key) && OneLine(value)
    ensures OneLine(Setting(key, value))
  {
  }

  lemma HeadingsAreLines()
    ensures OneLine(MARKER) && OneLine("[Unit]") && OneLine("[Service]") && OneLine("[Timer]") && OneLine("[Install]") && OneLine("")
  {
  }

  lemma TargetsAreLines()
    ensures OneLine(Setting("Wants", "network-" + "online.target"))
    ensures OneLine(Setting("After", "network-" + "online.target"))
  {
    hide Setting;
    SettingIsOneLine("Wants", "network-" + "online.target");
    SettingIsOneLine("After", "network-" + "online.target");
  }

  lemma OrderIsALine()
    ensures OneLine(Setting("After", "systemd-" + "sysctl.service " + "network-" + "online.target"))
  {
    hide Setting;
    SettingIsOneLine("After", "systemd-" + "sysctl.service " + "network-" + "online.target");
  }

  lemma ConditionIsALine()
    ensures OneLine(Setting("ConditionPathExists", "/etc/" + "sshappy-tune/" + "profile.json"))
  {
    hide Setting;
    SettingIsOneLine("ConditionPathExists", "/etc/" + "sshappy-tune/" + "profile.json");
  }

  lemma ApplyDescriptionIsALine()
    ensures OneLine(Setting("Description", "Reconcile " + "sshappy-tune " + "host network " + "profile"))
  {
    hide Setting;
    SettingIsOneLine("Description", "Reconcile " + "sshappy-tune " + "host network " + "profile");
  }

  lemma VerifyDescriptionIsALine()
    ensures OneLine(Setting("Description", "Verify " + "sshappy-tune " + "host network " + "profile"))
  {
    hide Setting;
    SettingIsOneLine("Description", "Verify " + "sshappy-tune " + "host network " + "profile");
  }

  lemma TimerDescriptionIsALine()
    ensures OneLine(Setting("Description", "Periodic " + "sshappy-tune " + "verification"))
  {
    hide Setting;
    SettingIsOneLine("Description", "Periodic " + "sshappy-tune " + "verification");
  }

  lemma CommandsAreLines(binary: string)
    requires OneLine(binary)
    ensures OneLine(Setting("ExecStart", binary + " reconcile --confirm"))
    ensures OneLine(Setting("ExecStart", binary + " verify"))
  {
    hide Setting;
    SettingIsOneLine("ExecStart", binary + " reconcile --confirm");
    SettingIsOneLine("ExecStart", binary + " verify");
  }

  lemma ServiceSettingsAreLines()
    ensures OneLine(Setting("Type", "oneshot"))
    ensures OneLine(Setting("UMask", "0077"))
    ensures OneLine(Setting("TimeoutStartSec", "60"))
    ensures OneLine(Setting("TimeoutStartSec", "45"))
  {
    hide Setting;
    SettingIsOneLine("Type", "oneshot");
    SettingIsOneLine("UMask", "0077");
    SettingIsOneLine("TimeoutStartSec", "60");
    SettingIsOneLine("TimeoutStartSec", "45");
  }

  lemma ConfinementIsLines()
    ensures OneLine(Setting("NoNewPrivileges", "yes"))
    ensures OneLine(Setting("PrivateTmp", "yes"))
    ensures OneLine(Setting("ProtectHome", "yes"))
  {
    hide Setting;
    SettingIsOneLine("NoNewPrivileges", "yes");
    SettingIsOneLine("PrivateTmp", "yes");
    SettingIsOneLine("ProtectHome", "yes");
  }

  lemma ProtectionIsLines()
    ensures OneLine(Setting("ProtectSystem", "strict"))
    ensures OneLine(Setting("ProtectKernelTunables", "yes"))
  {
    hide Setting;
    SettingIsOneLine("ProtectSystem", "strict");
    SettingIsOneLine("ProtectKernelTunables", "yes");
  }

  lemma TimesAreLines()
    ensures OneLine(Setting("OnBootSec", "10min"))
    ensures OneLine(Setting("OnUnitActiveSec", "6h"))
    ensures OneLine(Setting("RandomizedDelaySec", "10min"))
  {
    hide Setting;
    SettingIsOneLine("OnBootSec", "10min");
    SettingIsOneLine("OnUnitActiveSec", "6h");
    SettingIsOneLine("RandomizedDelaySec", "10min");
  }

  lemma TimerSettingsAreLines()
    ensures OneLine(Setting("Persistent", "yes"))
    ensures OneLine(Setting("Unit", "sshappy-tune-" + "verify.service"))
  {
    hide Setting;
    SettingIsOneLine("Persistent", "yes");
    SettingIsOneLine("Unit", "sshappy-tune-" + "verify.service");
  }

  lemma WantedByIsALine()
    ensures OneLine(Setting("WantedBy", "timers.target"))
    ensures OneLine(Setting("WantedBy", "multi-user.target"))
  {
    hide Setting;
    SettingIsOneLine("WantedBy", "timers.target");
    SettingIsOneLine("WantedBy", "multi-user.target");
  }

  lemma ApplyScans(binary: string)
    requires OneLine(binary)
    ensures ScanLines(Lines(ApplyLines(binary))) == ApplyLines(binary)
  {
    hide Setting, MARKER, OneLine, ScanLines, Lines;
    HeadingsAreLines();
    TargetsAreLines();
    OrderIsALine();
    ConditionIsALine();
    ApplyDescriptionIsALine();
    CommandsAreLines(binary);
    ServiceSettingsAreLines();
    ConfinementIsLines();
    WantedByIsALine();
    ScanText(ApplyLines(binary));
  }

  lemma VerifyScans(binary: string)
    requires OneLine(binary)
    ensures ScanLines(Lines(VerifyLines(binary))) == VerifyLines(binary)
  {
    hide Setting, MARKER, OneLine, ScanLines, Lines;
    HeadingsAreLines();
    TargetsAreLines();
    VerifyDescriptionIsALine();
    CommandsAreLines(binary);
    ServiceSettingsAreLines();
    ConfinementIsLines();
    ProtectionIsLines();
    ScanText(VerifyLines(binary));
  }

  lemma TimerScans()
    ensures ScanLines(Lines(TimerLines())) == TimerLines()
  {
    hide Setting, MARKER, OneLine, ScanLines, Lines;
    HeadingsAreLines();
    TimerDescriptionIsALine();
    TimesAreLines();
    TimerSettingsAreLines();
    WantedByIsALine();
    ScanText(TimerLines());
  }

  // ---------- the settings that matter ----------

  // The line differs from the key at its first or at its k-th character.
  predicate Apart(line: string, key: string, k: nat)
    requires k < |key|
  {
    |line| <= k || line[0] != key[0] || line[k] != key[k]
  }

  lemma {:induction false} NoneSays(lines: seq<string>, key: string, k: nat)
    requires k < |key| && forall j | 0 <= j < |lines| :: Apart(lines[j], key, k)
    ensures Settings(lines, key) == []
  {
    if lines != [] {
      assert Apart(lines[0], key, k);
      PrefixAgrees(lines[0], key + "=", 0);
      PrefixAgrees(lines[0], key + "=", k);
      NoneSays(lines[1..], key, k);
    }
  }

  // Exactly one line says something about the key.
  lemma {:induction false} OneSays(lines: seq<string>, i: nat, key: string, value: string, k: nat)
    requires i < |lines| && lines[i] == Setting(key, value)
    requires k < |key| && forall j | 0 <= j < |lines| && j != i :: Apart(lines[j], key, k)
    ensures Settings(lines, key) == [value]
  {
    if i == 0 {
      assert lines[0][..|key + "="|] == key + "=" && lines[0][|key| + 1..] == value;
      NoneSays(lines[1..], key, k);
    } else {
      assert Apart(lines[0], key, k);
      PrefixAgrees(lines[0], key + "=", 0);
      PrefixAgrees(lines[0], key + "=", k);
      OneSays(lines[1..], i - 1, key, value, k);
    }
  }

  lemma PrefixAgrees(line: string, prefix: string, k: nat)
    requires k < |prefix|
    ensures HasPrefix(line, prefix) ==> k < |line| && line[k] == prefix[k]
  {
    if HasPrefix(line, prefix) { assert line[k] == line[..|prefix|][k]; }
  }

  // What a reader of the text finds the setting to be, all lines taken together.
  function SettingsOf(text: string, key: string): seq<string> {
    Settings(ScanLines(text), key)
  }

  // The apply service, wanted at boot, reconciles.
  lemma ApplyUnitReconciles(binary: string)
    requires OneLine(binary)
    ensures SettingsOf(ApplyUnit(binary), "ExecStart") == [binary + " reconcile --confirm"]
    ensures SettingsOf(ApplyUnit(binary), "Type") == ["oneshot"]
    ensures SettingsOf(ApplyUnit(binary), "WantedBy") == ["multi-user.target"]
  {
    hide ScanLines, Lines, Settings;
    ApplyScans(binary);
    OneSays(ApplyLines(binary), 9, "ExecStart", binary + " reconcile --confirm", 0);
    OneSays(ApplyLines(binary), 8, "Type", "oneshot", 1);
    OneSays(ApplyLines(binary), 17, "WantedBy", "multi-user.target", 4);
  }

  // The verify service only verifies, and nothing wants it but the timer.
  lemma VerifyUnitVerifies(binary: string)
    requires OneLine(binary)
    ensures SettingsOf(VerifyUnit(binary), "ExecStart") == [binary + " verify"]
    ensures SettingsOf(VerifyUnit(binary), "Type") == ["oneshot"]
    ensures SettingsOf(VerifyUnit(binary), "WantedBy") == []
  {
    hide ScanLines, Lines, Settings;
    VerifyScans(binary);
    OneSays(VerifyLines(binary), 7, "ExecStart", binary + " verify", 0);
    OneSays(VerifyLines(binary), 6, "Type", "oneshot", 1);
    NoneSays(VerifyLines(binary), "WantedBy", 0);
  }

  // The timer starts the verify service every six hours.
  lemma TimerStartsVerification()
    ensures SettingsOf(VerifyTimer(), "Unit") == ["sshappy-tune-verify.service"]
    ensures SettingsOf(VerifyTimer(), "OnUnitActiveSec") == ["6h"]
    ensures SettingsOf(VerifyTimer(), "WantedBy") == ["timers.target"]
  {
    hide ScanLines, Lines, Settings;
    TimerScans();
    assert "sshappy-tune-" + "verify.service" == "sshappy-tune-verify.service";
    OneSays(TimerLines(), 9, "Unit", "sshappy-tune-verify.service", 0);
    OneSays(TimerLines(), 6, "OnUnitActiveSec", "6h", 2);
    OneSays(TimerLines(), 12, "WantedBy", "timers.target", 0);
  }
}
