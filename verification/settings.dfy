/**
 * `SystemSettings.tsx`: the system configuration held by the settings page
 * and its two list editors, the IP whitelist and the allowed CORS origins.
 */
module Settings {
  import opened Seqs

  datatype GeneralSettings = GeneralSettings(
    systemName: string,
    systemVersion: string,
    maintenanceMode: bool,
    debugMode: bool,
    timezone: string,
    language: string,
    dateFormat: string,
    currency: string)

  datatype SecuritySettings = SecuritySettings(
    sessionTimeout: int,
    passwordMinLength: int,
    passwordRequireSpecialChars: bool,
    maxLoginAttempts: int,
    twoFactorAuth: bool,
    ipWhitelist: seq<string>,
    apiRateLimit: int)

  datatype SmtpEncryption = NoEncryption | Tls | Ssl

  datatype EmailSettings = EmailSettings(
    smtpHost: string,
    smtpPort: int,
    smtpUsername: string,
    smtpPassword: string,
    smtpEncryption: SmtpEncryption,
    fromEmail: string,
    fromName: string)

  datatype NotificationSettings = NotificationSettings(
    emailNotifications: bool,
    smsNotifications: bool,
    pushNotifications: bool,
    systemAlerts: bool,
    jobAlerts: bool,
    billingAlerts: bool)

  datatype BackupFrequency = Daily | Weekly | Monthly

  datatype BackupSettings = BackupSettings(
    autoBackup: bool,
    backupFrequency: BackupFrequency,
    backupRetention: int,
    backupLocation: string,
    lastBackup: string)

  datatype ApiSettings = ApiSettings(
    apiEnabled: bool,
    apiVersion: string,
    rateLimitPerHour: int,
    allowedOrigins: seq<string>,
    webhookUrl: string)

  /** `SystemConfig`. */
  datatype SystemConfig = SystemConfig(
    general: GeneralSettings,
    security: SecuritySettings,
    email: EmailSettings,
    notifications: NotificationSettings,
    backup: BackupSettings,
    api: ApiSettings)

  /** The configuration the page starts from. */
  const InitialConfig: SystemConfig := SystemConfig(
    GeneralSettings("TKBM Management System", "2.1.0", false, false, "Asia/Jakarta", "id", "DD/MM/YYYY", "IDR"),
    SecuritySettings(30, 8, true, 5, false, ["192.168.1.0/24", "10.0.0.0/8"], 1000),
    EmailSettings("smtp.gmail.com", 587, "system@tkbm.co.id", "••••••••••••", Tls, "noreply@tkbm.co.id", "TKBM System"),
    NotificationSettings(true, false, true, true, true, true),
    BackupSettings(true, Daily, 30, "/backups/tkbm", "2024-03-20T02:00:00Z"),
    ApiSettings(true, "v1", 10000, ["https://app.tkbm.co.id", "https://mobile.tkbm.co.id"], "https://api.tkbm.co.id/webhooks"))

  /** The page state the list editors touch: the configuration and the two
      text inputs holding the entry about to be added. */
  datatype SettingsState = SettingsState(config: SystemConfig, newIpAddress: string, newOrigin: string)

  predicate NoDuplicates(list: seq<string>) {
    forall i, j :: 0 <= i < j < |list| ==> list[i] != list[j]
  }

  /** An entry is added when it is non-empty and not yet listed. */
  predicate Accepts(list: seq<string>, entry: string) {
    entry != "" && entry !in list
  }

  /** The list after the add button: the entry appended when accepted. */
  function AddEntry(list: seq<string>, entry: string): (r: seq<string>)
    ensures |list| <= |r| <= |list| + 1
    ensures r[..|list|] == list
    ensures |r| == |list| + 1 <==> Accepts(list, entry)
    ensures |r| == |list| + 1 ==> r[|list|] == entry
    ensures entry != "" ==> entry in r
    ensures forall x :: x in r <==> x in list || (x == entry && entry != "")
    ensures NoDuplicates(list) ==> NoDuplicates(r)
  {
    if Accepts(list, entry) then
      assert (list + [entry])[..|list|] == list;
      list + [entry]
    else list
  }

  /** The list after a remove button: every copy of the entry dropped, the
      other entries kept in order. */
  function RemoveEntry(list: seq<string>, entry: string): (r: seq<string>)
    ensures entry !in r
    ensures forall x :: x in r <==> x in list && x != entry
    ensures forall x :: x != entry ==> multiset(r)[x] == multiset(list)[x]
    ensures IsSubseq(r, list)
  {
    var r := Filter(list, x => x != entry);
    assert forall x :: x in r ==> exists i :: 0 <= i < |r| && r[i] == x;
    r
  }

  /** A subsequence of a duplicate-free list is duplicate-free. */
  lemma {:induction false} SubseqNoDuplicates(a: seq<string>, b: seq<string>)
    requires IsSubseq(a, b) && NoDuplicates(b)
    ensures NoDuplicates(a)
    decreases |b|
  {
    if |a| > 0 {
      assert |b| > 0;
      assert NoDuplicates(b[1..]) by {
        forall i, j | 0 <= i < j < |b[1..]|
          ensures b[1..][i] != b[1..][j]
        {
          assert b[1..][i] == b[i + 1] && b[1..][j] == b[j + 1];
        }
      }
      if a[0] == b[0] && IsSubseq(a[1..], b[1..]) {
        SubseqNoDuplicates(a[1..], b[1..]);
        SubseqMembers(a[1..], b[1..]);
        forall j | 0 < j < |a|
          ensures a[0] != a[j]
        {
          assert a[1..][j - 1] == a[j];
          assert a[j] in b[1..];
          var k :| 0 <= k < |b[1..]| && b[1..][k] == a[j];
          assert b[k + 1] == a[j];
        }
      } else {
        SubseqNoDuplicates(a, b[1..]);
      }
    }
  }

  /** `addIpAddress`: appends the typed address when accepted and then clears
      the input; a rejected address leaves the state as it was. */
  function AddIpAddress(st: SettingsState): (r: SettingsState)
    ensures r.config.security.ipWhitelist == AddEntry(st.config.security.ipWhitelist, st.newIpAddress)
    ensures r.newIpAddress == (if Accepts(st.config.security.ipWhitelist, st.newIpAddress) then "" else st.newIpAddress)
    ensures r.config == st.config.(security := st.config.security.(ipWhitelist := r.config.security.ipWhitelist))
    ensures r.newOrigin == st.newOrigin
  {
    var wl := st.config.security.ipWhitelist;
    if Accepts(wl, st.newIpAddress) then
      st.(config := st.config.(security := st.config.security.(ipWhitelist := wl + [st.newIpAddress])),
          newIpAddress := "")
    else st
  }

  /** `removeIpAddress`. */
  function RemoveIpAddress(st: SettingsState, ip: string): (r: SettingsState)
    ensures r.config.security.ipWhitelist == RemoveEntry(st.config.security.ipWhitelist, ip)
    ensures r == st.(config := st.config.(security := st.config.security.(ipWhitelist := r.config.security.ipWhitelist)))
  {
    st.(config := st.config.(security := st.config.security.(ipWhitelist := RemoveEntry(st.config.security.ipWhitelist, ip))))
  }

  /** `addOrigin`: appends the typed origin when accepted and then clears the input. */
  function AddOrigin(st: SettingsState): (r: SettingsState)
    ensures r.config.api.allowedOrigins == AddEntry(st.config.api.allowedOrigins, st.newOrigin)
    ensures r.newOrigin == (if Accepts(st.config.api.allowedOrigins, st.newOrigin) then "" else st.newOrigin)
    ensures r.config == st.config.(api := st.config.api.(allowedOrigins := r.config.api.allowedOrigins))
    ensures r.newIpAddress == st.newIpAddress
  {
    var os := st.config.api.allowedOrigins;
    if Accepts(os, st.newOrigin) then
      st.(config := st.config.(api := st.config.api.(allowedOrigins := os + [st.newOrigin])),
          newOrigin := "")
    else st
  }

  /** `removeOrigin`. */
  function RemoveOrigin(st: SettingsState, origin: string): (r: SettingsState)
    ensures r.config.api.allowedOrigins == RemoveEntry(st.config.api.allowedOrigins, origin)
    ensures r == st.(config := st.config.(api := st.config.api.(allowedOrigins := r.config.api.allowedOrigins)))
  {
    st.(config := st.config.(api := st.config.api.(allowedOrigins := RemoveEntry(st.config.api.allowedOrigins, origin))))
  }

  /** Removing an address that was just added restores the configuration it
      was added to. */
  lemma AddThenRemoveRestores(st: SettingsState)
    requires Accepts(st.config.security.ipWhitelist, st.newIpAddress)
    ensures RemoveIpAddress(AddIpAddress(st), st.newIpAddress).config == st.config
  {
    var wl, ip := st.config.security.ipWhitelist, st.newIpAddress;
    var p := (x: string) => x != ip;
    assert forall x :: x in wl ==> p(x);
    FilterKeepsAll(wl, p);
    assert Filter(wl + [ip], p) == Filter(wl, p) by {
      FilterAppendDropped(wl, ip, p);
    }
  }

  /** Removing twice is removing once, and adding again right after a
      successful add changes nothing, the input being empty by then. */
  lemma EditorsSettle(st: SettingsState, ip: string)
    ensures RemoveIpAddress(RemoveIpAddress(st, ip), ip) == RemoveIpAddress(st, ip)
    ensures Accepts(st.config.security.ipWhitelist, st.newIpAddress) ==> AddIpAddress(AddIpAddress(st)) == AddIpAddress(st)
  {
    var wl := RemoveIpAddress(st, ip).config.security.ipWhitelist;
    FilterKeepsAll(wl, x => x != ip);
  }

  /** One user action on the two list editors. */
  datatype Edit = TypeIp(ip: string) | AddIp | RemoveIp(ip: string)
                | TypeOrigin(origin: string) | AddOriginEdit | RemoveOriginEdit(origin: string)

  function Step(st: SettingsState, e: Edit): SettingsState {
    match e
    case TypeIp(ip) => st.(newIpAddress := ip)
    case AddIp => AddIpAddress(st)
    case RemoveIp(ip) => RemoveIpAddress(st, ip)
    case TypeOrigin(o) => st.(newOrigin := o)
    case AddOriginEdit => AddOrigin(st)
    case RemoveOriginEdit(o) => RemoveOrigin(st, o)
  }

  function Run(st: SettingsState, edits: seq<Edit>): SettingsState
    decreases |edits|
  {
    if |edits| == 0 then st else Run(Step(st, edits[0]), edits[1..])
  }

  predicate ListsDuplicateFree(c: SystemConfig) {
    NoDuplicates(c.security.ipWhitelist) && NoDuplicates(c.api.allowedOrigins)
  }

  /** Whatever the user types, adds and removes, neither list ever holds the
      same entry twice, starting from the initial configuration. */
  lemma {:induction false} EditsKeepListsDuplicateFree(st: SettingsState, edits: seq<Edit>)
    requires ListsDuplicateFree(st.config)
    ensures ListsDuplicateFree(Run(st, edits).config)
    decreases |edits|
  {
    if |edits| > 0 {
      var next := Step(st, edits[0]);
      match edits[0] {
      case RemoveIp(ip) =>
        SubseqNoDuplicates(next.config.security.ipWhitelist, st.config.security.ipWhitelist);
      case RemoveOriginEdit(o) =>
        SubseqNoDuplicates(next.config.api.allowedOrigins, st.config.api.allowedOrigins);
      case _ =>
      }
      EditsKeepListsDuplicateFree(next, edits[1..]);
    }
  }

  lemma InitialListsDuplicateFree()
    ensures ListsDuplicateFree(InitialConfig)
  {
  }
}
