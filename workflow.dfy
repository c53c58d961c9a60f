/** The two-step reset workflow of index.php (lines 271-482) as functions on
    a snapshot of the session and of what the script did to the outside
    world. The directory's answers (connect, bind, search, modify) and the
    digest `keyGen` cuts its key from are parameters. The imperative version
    of the same steps, on a session object, is in module Session. */
module Workflow {
  import opened Wrappers
  import opened Text
  import opened Keys
  import opened Password
  import opened Status

  /** `DEBUG_MODE` and `SEND_MAIL` (index.php:35, 37). */
  const DEBUG_MODE: bool := false
  const SEND_MAIL: bool := true

  /** Length of the generated password (index.php:421). */
  const PWD_LENGTH: nat := 8

  // ---------------------------------------------------------------------------
  // Data

  /** A session value that `clearVars` can blank: PHP's '' or a stored value. */
  datatype Slot<T> = Blank | Held(value: T)

  /** A directory entry as the script reads it: its distinguished name and
      the first value of its `mail` attribute ('' when it has none). */
  datatype Entry = Entry(dn: string, mail: string)

  /** What the directory answers during one request: whether `ldap_connect`
      gives a handle, whether `ldap_bind` succeeds, the entries
      `ldap_get_entries` returns, and whether `ldap_modify` succeeds. */
  datatype Directory = Directory(connectOk: bool, bindOk: bool, entries: seq<Entry>, modifyOk: bool)

  /** A sent mail: recipient, subject, and the secret its body carries (the
      token in the confirmation link, or the new password). */
  datatype Mail = Mail(to: string, subject: string, carries: string)

  /** An `ldap_modify` call: target entry and the `unicodePwd` value. */
  datatype Write = Write(dn: string, unicodePwd: string)

  /** The `$_SESSION` keys the script uses. */
  datatype Vars = Vars(
    email: string, pwd: string, login: string, hash: string,
    ldapID: Slot<bool>, ldapBinding: Slot<bool>, ldapSearch: Slot<seq<Entry>>,
    userDn: string, unicodePwd: string, errors: seq<string>)

  /** What the outside world saw: connection attempts, closes, search
      filters sent, modify calls, mails sent. */
  datatype Effects = Effects(
    connects: nat, closes: nat, filters: seq<string>, writes: seq<Write>, outbox: seq<Mail>)

  datatype State = State(vars: Vars, fx: Effects)

  const EMPTY_VARS: Vars := Vars("", "", "", "", Blank, Blank, Blank, "", "", [])
  const NO_EFFECTS: Effects := Effects(0, 0, [], [], [])

  // ---------------------------------------------------------------------------
  // Messages, subjects and search filters

  const MSG_NO_LOGIN: string := "Aucun login de saisi"
  const MSG_CONNECT: string := "Impossible d'effectuer la connexion au LDAP"
  const MSG_BIND: string := "Impossible d'effectuer la liaison au LDAP (LDAP binding)"
  const MSG_NO_HASH: string := "Aucun hash de récupéré - l'opération ne peut se poursuivre"
  const MSG_NO_SESSION_HASH: string := "Aucun hash de session récupéré - l'opération ne peut se poursuivre"
  const MSG_NO_REQUEST: string := "Aucune demande de modification effectuée pour cet utilisateur"
  const MSG_NO_EMAIL: string := "Aucune adresse e-mail de récupérée - l'opération ne peut se poursuivre"
  function MsgFound(who: string): string { "Utilisateur " + who + " trouvé" }
  function MsgNotFound(who: string): string { "Impossible de trouver l'utilisateur " + who }
  function MsgRequestSent(email: string): string {
    "Un e-mail de confirmation a été envoyé à l'adresse " + email + "<br>Merci de ne pas fermer la fenêtre en cours"
  }
  function MsgChanged(mail: string): string {
    "Le mot de passe pour l'utilisateur " + mail + " a été changé"
  }
  function MsgPwdSent(email: string): string {
    "Un e-mail de confirmation contenant votre nouveau mot de passe a été envoyé à l'adresse " + email
  }
  function MsgWriteFailed(mail: string): string {
    "Impossible de modifier le mot de passe pour l'utilisateur " + mail
  }

  const SUBJECT_REQUEST: string := "Demande de changement de mot de passe LDAP"
  const SUBJECT_CHANGED: string := "Confirmation de changement de mot de passe LDAP"

  const FILTER_PREFIX: string := "(&(objectClass=user)(objectCategory=person)("
  function LoginFilter(login: string): string { FILTER_PREFIX + "sn=" + login + "*))" }
  function MailFilter(mail: string): string { FILTER_PREFIX + "mail=" + mail + "*))" }

  // ---------------------------------------------------------------------------
  // The helpers of index.php, as state transformers

  /** `$_SESSION['errors'][] = errorDump($msg, $kind)`. */
  function AddError(s: State, msg: string, kind: string): State {
    s.(vars := s.vars.(errors := s.vars.errors + [ErrorDump(msg, kind)]))
  }

  /** `ldapConnect` (index.php:63-70): one connection attempt; the handle, or
      false, is stored in the session. */
  function LdapConnect(s: State, ok: bool): State {
    State(s.vars.(ldapID := Held(ok)), s.fx.(connects := s.fx.connects + 1))
  }

  /** `ldapBinding` (index.php:79-83). */
  function LdapBinding(s: State, ok: bool): State {
    s.(vars := s.vars.(ldapBinding := Held(ok)))
  }

  /** `ldapSearch` (index.php:93-98): the filter goes out, the entries are
      stored in the session. */
  function LdapSearch(s: State, filter: string, entries: seq<Entry>): State {
    State(s.vars.(ldapSearch := Held(entries)), s.fx.(filters := s.fx.filters + [filter]))
  }

  /** `ldapClose` (index.php:104-106). */
  function LdapClose(s: State): State {
    s.(fx := s.fx.(closes := s.fx.closes + 1))
  }

  /** `sendMail` (index.php:114-122): a no-op unless SEND_MAIL. */
  function SendMail(s: State, to: string, subject: string, carries: string): State {
    if SEND_MAIL then s.(fx := s.fx.(outbox := s.fx.outbox + [Mail(to, subject, carries)])) else s
  }

  /** The eight sensitive keys `clearVars` blanks. */
  predicate Scrubbed(v: Vars) {
    v.email == "" && v.pwd == "" && v.login == "" && v.hash == ""
    && v.ldapID == Blank && v.ldapBinding == Blank && v.ldapSearch == Blank && v.userDn == ""
  }

  /** `clearVars` (index.php:162-171). */
  function ClearVars(v: Vars): (r: Vars)
    ensures Scrubbed(r)
    ensures r.unicodePwd == v.unicodePwd && r.errors == v.errors
  {
    v.(email := "", pwd := "", login := "", hash := "",
       ldapID := Blank, ldapBinding := Blank, ldapSearch := Blank, userDn := "")
  }

  /** clearVars leaves every key but the eight alone (notably `errors`, and
      `unicodePwd`, which still holds the encoded password), and a
      scrubbed session is a fixed point. */
  lemma ClearVarsFrame(v: Vars)
    ensures ClearVars(v) == v <==> Scrubbed(v)
    ensures ClearVars(ClearVars(v)) == ClearVars(v)
    ensures forall w: Vars :: w.errors == v.errors && w.unicodePwd == v.unicodePwd ==> ClearVars(w) == ClearVars(v)
  {
  }

  // ---------------------------------------------------------------------------
  // Step "check" (index.php:271-364)

  /** The login as cleaned at index.php:277: '' when the form field is unset. */
  function CleanLogin(txtLogin: Option<string>): string {
    if txtLogin.Some? then StrClean(txtLogin.value, true) else ""
  }

  /** The status list restarted, and the empty-login check (index.php:274-280). */
  function CheckGuard(s: State, login: string): State {
    var s1 := s.(vars := s.vars.(errors := []));
    if login == "" then AddError(s1, MSG_NO_LOGIN, "danger") else s1
  }

  /** From the connection to its close (index.php:283-362). */
  function CheckConnected(s: State, login: string, dir: Directory, digest: string): State {
    var s3 := LdapConnect(s, dir.connectOk);
    if !dir.connectOk then AddError(s3, MSG_CONNECT, "danger")
    else
      var s4 := LdapBinding(s3, dir.bindOk);
      var s5 := if dir.bindOk then CheckSearch(s4, login, dir.entries, digest)
                else AddError(s4, MSG_BIND, "danger");
      LdapClose(s5)
  }

  /** The search by login and its outcome, after a successful bind. */
  function CheckSearch(s: State, login: string, entries: seq<Entry>, digest: string): State {
    var s1 := LdapSearch(s, LoginFilter(login), entries);
    if |entries| > 0 then
      var s2 := AddError(s1, MsgFound(login), "success");
      var email := entries[0].mail;
      var hash := KeyGen(digest, KEY_DEFAULT_LENGTH);
      var s3 := StoreRequest(s2, login, email, hash);
      var s4 := SendMail(s3, email, SUBJECT_REQUEST, hash);
      AddError(s4, MsgRequestSent(email), "info")
    else
      AddError(s1, MsgNotFound(login), "warning")
  }

  /** The login, address and key of a pending request, kept in the session
      (index.php:312-316). */
  function StoreRequest(s: State, login: string, email: string, hash: string): State {
    s.(vars := s.vars.(login := login, email := email, hash := hash))
  }

  /** Step "check" as a whole. Whatever happens, the page it renders carries
      at least one status message. */
  function CheckStep(s: State, txtLogin: Option<string>, dir: Directory, digest: string): (r: State)
    ensures r.vars.errors != []
  {
    var login := CleanLogin(txtLogin);
    var s2 := CheckGuard(s, login);
    if s2.vars.errors != [] then s2 else CheckConnected(s2, login, dir, digest)
  }

  // ---------------------------------------------------------------------------
  // Step "change" (index.php:367-482)

  /** The presented token as cleaned at index.php:373, without lower-casing. */
  function CleanHash(getHash: Option<string>): string {
    if getHash.Some? then StrClean(getHash.value, false) else ""
  }

  /** The four checks of index.php:376-385 all pass. PHP's loose `!=` at
      line 382 is taken as string inequality. */
  predicate Validated(v: Vars, hash: string) {
    hash != "" && v.hash != "" && hash == v.hash && v.email != ""
  }

  /** How many of the four checks fail. */
  function FailedChecks(v: Vars, hash: string): nat {
    (if hash == "" then 1 else 0) + (if v.hash == "" then 1 else 0)
    + (if hash != v.hash then 1 else 0) + (if v.email == "" then 1 else 0)
  }

  /** The status list restarted, and the four checks (index.php:370-385). */
  function ChangeGuard(s: State, hash: string): State {
    var s1 := s.(vars := s.vars.(errors := []));
    var s2 := if hash == "" then AddError(s1, MSG_NO_HASH, "danger") else s1;
    var s3 := if s2.vars.hash == "" then AddError(s2, MSG_NO_SESSION_HASH, "danger") else s2;
    var s4 := if hash != s3.vars.hash then AddError(s3, MSG_NO_REQUEST, "danger") else s3;
    if s4.vars.email == "" then AddError(s4, MSG_NO_EMAIL, "danger") else s4
  }

  /** From the connection to its close and the scrub (index.php:388-480). */
  function ChangeConnected(s: State, dir: Directory, digest: string): State {
    var s6 := LdapConnect(s, dir.connectOk);
    if !dir.connectOk then AddError(s6, MSG_CONNECT, "danger")
    else
      var s7 := LdapBinding(s6, dir.bindOk);
      var s8 := if dir.bindOk then ChangeSearch(s7, dir, digest)
                else AddError(s7, MSG_BIND, "danger");
      var s9 := LdapClose(s8);
      if DEBUG_MODE then s9 else s9.(vars := ClearVars(s9.vars))
  }

  /** The search by email, after a successful bind. */
  function ChangeSearch(s: State, dir: Directory, digest: string): State {
    var mail := s.vars.email;
    var s1 := LdapSearch(s, MailFilter(mail), dir.entries);
    if |dir.entries| == 1 then
      ChangeWrite(AddError(s1, MsgFound(mail), "success"), dir.entries[0].dn, dir.modifyOk, digest)
    else
      AddError(s1, MsgNotFound(mail), "warning")
  }

  /** The new password, stored and encoded, and the write that carries it. */
  function ChangeWritten(s: State, userDn: string, digest: string): State {
    var pwd := KeyGen(digest, PWD_LENGTH);
    var encoded := UnicodePwd(pwd);
    State(s.vars.(pwd := pwd, userDn := userDn, unicodePwd := encoded),
          s.fx.(writes := s.fx.writes + [Write(userDn, encoded)]))
  }

  /** The new password, its write to `userDn`, and the credential mail when
      the write succeeded (`modifyOk`). */
  function ChangeWrite(s: State, userDn: string, modifyOk: bool, digest: string): State {
    var mail := s.vars.email;
    var pwd := KeyGen(digest, PWD_LENGTH);
    var s4 := ChangeWritten(s, userDn, digest);
    if modifyOk then
      var s5 := AddError(s4, MsgChanged(mail), "success");
      var s6 := SendMail(s5, mail, SUBJECT_CHANGED, pwd);
      AddError(s6, MsgPwdSent(mail), "info")
    else
      AddError(s4, MsgWriteFailed(mail), "danger")
  }

  /** Step "change" as a whole. Whatever happens, the page it renders carries
      at least one status message. */
  function ChangeStep(s: State, getHash: Option<string>, dir: Directory, digest: string): (r: State)
    ensures r.vars.errors != []
  {
    var hash := CleanHash(getHash);
    var s5 := ChangeGuard(s, hash);
    if s5.vars.errors != [] then s5
    else ChangeConnectedStatus(s5, dir, digest); ChangeConnected(s5, dir, digest)
  }

  // ---------------------------------------------------------------------------
  // The status lists the two steps report, written out case by case

  /** The messages of a "check" whose login is not empty, in order: a danger
      for a failed connection or bind, a warning when no entry matches, and
      otherwise the match and the address the key was mailed to. */
  function CheckOutcome(login: string, dir: Directory): seq<string> {
    if !dir.connectOk then [ErrorDump(MSG_CONNECT, "danger")]
    else if !dir.bindOk then [ErrorDump(MSG_BIND, "danger")]
    else if |dir.entries| == 0 then [ErrorDump(MsgNotFound(login), "warning")]
    else [ErrorDump(MsgFound(login), "success"), ErrorDump(MsgRequestSent(dir.entries[0].mail), "info")]
  }

  /** The messages of a "change" that passed its four checks, for the
      session's address `email`, in order: a danger for a failed connection
      or bind, a warning unless exactly one entry matches, then the match
      and either the change and the mailed password or a danger for a
      failed write. */
  function ChangeOutcome(email: string, dir: Directory): seq<string> {
    if !dir.connectOk then [ErrorDump(MSG_CONNECT, "danger")]
    else if !dir.bindOk then [ErrorDump(MSG_BIND, "danger")]
    else if |dir.entries| != 1 then [ErrorDump(MsgNotFound(email), "warning")]
    else [ErrorDump(MsgFound(email), "success")] + WriteOutcome(email, dir.modifyOk)
  }

  /** The messages of the write: the change and the mailed password, or a
      danger for a failed write. */
  function WriteOutcome(email: string, modifyOk: bool): seq<string> {
    if modifyOk then [ErrorDump(MsgChanged(email), "success"), ErrorDump(MsgPwdSent(email), "info")]
    else [ErrorDump(MsgWriteFailed(email), "danger")]
  }

  // ---------------------------------------------------------------------------
  // Properties of step "check"

  /** Nothing but the status list changed. */
  predicate OnlyStatus(s: State, r: State) {
    r.fx == s.fx && r.vars == s.vars.(errors := r.vars.errors)
  }

  /** An empty cleaned login: one danger message and nothing else happens;
      no connection is attempted. */
  lemma CheckEmptyLogin(s: State, txtLogin: Option<string>, dir: Directory, digest: string)
    requires CleanLogin(txtLogin) == ""
    ensures OnlyStatus(s, CheckStep(s, txtLogin, dir, digest))
    ensures CheckStep(s, txtLogin, dir, digest).vars.errors == [ErrorDump(MSG_NO_LOGIN, "danger")]
  {
  }

  /** What the search by login does to the session and the outside world. */
  lemma CheckSearchEffects(s: State, login: string, entries: seq<Entry>, digest: string)
    ensures var r := CheckSearch(s, login, entries, digest);
      && r.fx.connects == s.fx.connects && r.fx.closes == s.fx.closes
      && r.fx.writes == s.fx.writes
      && r.fx.filters == s.fx.filters + [LoginFilter(login)]
      && r.vars.errors == s.vars.errors + CheckOutcome(login, Directory(true, true, entries, true))
      && (|entries| == 0 ==> r.vars.errors == s.vars.errors + [ErrorDump(MsgNotFound(login), "warning")])
      && (|entries| > 0 ==>
            && r.vars.login == login && r.vars.email == entries[0].mail
            && r.vars.hash == KeyGen(digest, KEY_DEFAULT_LENGTH)
            && r.fx.outbox == s.fx.outbox + [Mail(entries[0].mail, SUBJECT_REQUEST, r.vars.hash)])
      && (|entries| == 0 ==>
            r.vars.login == s.vars.login && r.vars.email == s.vars.email && r.vars.hash == s.vars.hash
            && r.fx.outbox == s.fx.outbox)
  {
  }

  /** What a connected "check" does to the session and the outside world. */
  lemma {:induction false} CheckConnectedEffects(s: State, login: string, dir: Directory, digest: string)
    ensures var r := CheckConnected(s, login, dir, digest);
      var found := dir.connectOk && dir.bindOk && |dir.entries| > 0;
      && r.fx.connects == s.fx.connects + 1
      && r.fx.closes == s.fx.closes + (if dir.connectOk then 1 else 0)
      && r.fx.writes == s.fx.writes
      && r.fx.filters == s.fx.filters + (if dir.connectOk && dir.bindOk then [LoginFilter(login)] else [])
      && r.vars.errors == s.vars.errors + CheckOutcome(login, dir)
      && (found ==>
            && r.vars.login == login && r.vars.email == dir.entries[0].mail
            && r.vars.hash == KeyGen(digest, KEY_DEFAULT_LENGTH)
            && r.fx.outbox == s.fx.outbox + [Mail(dir.entries[0].mail, SUBJECT_REQUEST, r.vars.hash)])
      && (!found ==>
            r.vars.login == s.vars.login && r.vars.email == s.vars.email && r.vars.hash == s.vars.hash
            && r.fx.outbox == s.fx.outbox)
  {
    if dir.connectOk && dir.bindOk {
      CheckSearchEffects(LdapBinding(LdapConnect(s, true), true), login, dir.entries, digest);
      assert CheckOutcome(login, dir) == CheckOutcome(login, Directory(true, true, dir.entries, true));
    }
  }

  /** A match: the cleaned login, the first entry's mail and a fresh key are
      stored, and exactly one mail, carrying that key, goes to that address. */
  lemma CheckFound(s: State, txtLogin: Option<string>, dir: Directory, digest: string)
    requires CleanLogin(txtLogin) != "" && dir.connectOk && dir.bindOk && |dir.entries| > 0
    ensures var r := CheckStep(s, txtLogin, dir, digest);
      && r.vars.login == CleanLogin(txtLogin)
      && r.vars.email == dir.entries[0].mail
      && r.vars.hash == KeyGen(digest, KEY_DEFAULT_LENGTH)
      && r.fx.outbox == s.fx.outbox + [Mail(dir.entries[0].mail, SUBJECT_REQUEST, r.vars.hash)]
  {
    var login := CleanLogin(txtLogin);
    CheckConnectedEffects(CheckGuard(s, login), login, dir, digest);
  }

  /** No match, or no bind, or no connection: login, email and key are left
      as they were and no mail goes out. */
  lemma CheckNoMatch(s: State, txtLogin: Option<string>, dir: Directory, digest: string)
    requires !(dir.connectOk && dir.bindOk && |dir.entries| > 0)
    ensures var r := CheckStep(s, txtLogin, dir, digest);
      r.vars.login == s.vars.login && r.vars.email == s.vars.email && r.vars.hash == s.vars.hash
      && r.fx.outbox == s.fx.outbox
  {
    var login := CleanLogin(txtLogin);
    CheckConnectedEffects(CheckGuard(s, login), login, dir, digest);
  }

  /** Step "check" attempts a connection exactly when the cleaned login is
      non-empty, closes exactly when the connection succeeded, and never
      writes to the directory. */
  lemma CheckConnections(s: State, txtLogin: Option<string>, dir: Directory, digest: string)
    ensures var r := CheckStep(s, txtLogin, dir, digest);
      var tried := CleanLogin(txtLogin) != "";
      && r.fx.connects == s.fx.connects + (if tried then 1 else 0)
      && r.fx.closes == s.fx.closes + (if tried && dir.connectOk then 1 else 0)
      && r.fx.writes == s.fx.writes
  {
    var login := CleanLogin(txtLogin);
    CheckConnectedEffects(CheckGuard(s, login), login, dir, digest);
  }

  /** The one search filter step "check" sends, when it gets that far,
      embeds the cleaned login, which is not empty and holds no space, no
      quote, no accented letter and no upper-case letter. */
  lemma CheckFilterSanitised(s: State, txtLogin: Option<string>, dir: Directory, digest: string)
    ensures var r := CheckStep(s, txtLogin, dir, digest);
      var login := CleanLogin(txtLogin);
      var sent := login != "" && dir.connectOk && dir.bindOk;
      && r.fx.filters == s.fx.filters + (if sent then [LoginFilter(login)] else [])
      && (sent ==> IsClean(login) && forall c :: c in login ==> !IsUpper(c))
  {
    var login := CleanLogin(txtLogin);
    CheckConnectedEffects(CheckGuard(s, login), login, dir, digest);
  }

  /** The status list step "check" leaves, the page's only output: it is
      restarted, then holds the empty-login danger alone, or the outcome of
      the connection, bind and search. A login matching no entry in
      particular gets exactly one warning. */
  lemma {:induction false} CheckStatus(s: State, txtLogin: Option<string>, dir: Directory, digest: string)
    ensures var r := CheckStep(s, txtLogin, dir, digest);
      var login := CleanLogin(txtLogin);
      && r.vars.errors == (if login == "" then [ErrorDump(MSG_NO_LOGIN, "danger")] else CheckOutcome(login, dir))
      && (login != "" && dir.connectOk && dir.bindOk && |dir.entries| == 0 ==>
            r.vars.errors == [ErrorDump(MsgNotFound(login), "warning")])
  {
    var login := CleanLogin(txtLogin);
    CheckConnectedEffects(CheckGuard(s, login), login, dir, digest);
  }

  // ---------------------------------------------------------------------------
  // Properties of step "change"

  /** The four checks: each failing one adds one danger message, nothing
      else changes, and the list stays empty exactly when all pass. */
  lemma ChangeGuardChecks(s: State, hash: string)
    ensures var r := ChangeGuard(s, hash);
      && OnlyStatus(s, r)
      && |r.vars.errors| == FailedChecks(s.vars, hash)
      && (r.vars.errors == [] <==> Validated(s.vars, hash))
      && forall e :: e in r.vars.errors ==> HasClass(e, "danger")
  {
    forall msg | true ensures HasClass(ErrorDump(msg, "danger"), "danger") {
      ErrorDumpRoundTrip(msg, "danger");
    }
  }

  /** Step "change" attempts a connection if and only if all four checks
      pass. When one fails, each failing check adds one danger message and
      nothing else happens. */
  lemma {:induction false} ChangeValidation(s: State, getHash: Option<string>, dir: Directory, digest: string)
    ensures var r := ChangeStep(s, getHash, dir, digest);
      var h := CleanHash(getHash);
      && (r.fx.connects > s.fx.connects <==> Validated(s.vars, h))
      && (!Validated(s.vars, h) ==>
            && OnlyStatus(s, r)
            && |r.vars.errors| == FailedChecks(s.vars, h) > 0
            && forall e :: e in r.vars.errors ==> HasClass(e, "danger"))
  {
    var h := CleanHash(getHash);
    ChangeGuardChecks(s, h);
    ChangeConnectedEffects(ChangeGuard(s, h), dir, digest);
  }

  /** What the search by email does to the outside world and to the stored
      encoded password. */
  lemma ChangeSearchEffects(s: State, dir: Directory, digest: string)
    ensures var r := ChangeSearch(s, dir, digest);
      var pwd := KeyGen(digest, PWD_LENGTH);
      var one := |dir.entries| == 1;
      && r.fx.connects == s.fx.connects && r.fx.closes == s.fx.closes
      && r.fx.writes == s.fx.writes + (if one then [Write(dir.entries[0].dn, UnicodePwd(pwd))] else [])
      && r.fx.outbox == s.fx.outbox
           + (if one && dir.modifyOk then [Mail(s.vars.email, SUBJECT_CHANGED, pwd)] else [])
      && r.vars.unicodePwd == (if one then UnicodePwd(pwd) else s.vars.unicodePwd)
  {
    if |dir.entries| == 1 {
      var mail := s.vars.email;
      var s1 := AddError(LdapSearch(s, MailFilter(mail), dir.entries), MsgFound(mail), "success");
      ChangeWriteEffects(s1, dir.entries[0].dn, dir.modifyOk, digest);
    }
  }

  /** What the write and the credential mail do, for the session's address. */
  lemma ChangeWriteEffects(s: State, userDn: string, modifyOk: bool, digest: string)
    ensures var r := ChangeWrite(s, userDn, modifyOk, digest);
      var pwd := KeyGen(digest, PWD_LENGTH);
      var mail := s.vars.email;
      && r.fx.connects == s.fx.connects && r.fx.closes == s.fx.closes && r.fx.filters == s.fx.filters
      && r.fx.writes == s.fx.writes + [Write(userDn, UnicodePwd(pwd))]
      && r.fx.outbox == s.fx.outbox + (if modifyOk then [Mail(mail, SUBJECT_CHANGED, pwd)] else [])
      && r.vars.unicodePwd == UnicodePwd(pwd)
  {
  }

  /** The messages the write adds. */
  lemma ChangeWriteStatus(s: State, userDn: string, modifyOk: bool, digest: string)
    ensures ChangeWrite(s, userDn, modifyOk, digest).vars.errors == s.vars.errors + WriteOutcome(s.vars.email, modifyOk)
  {
    var t := ChangeWritten(s, userDn, digest);
    assert t.vars.errors == s.vars.errors && t.vars.email == s.vars.email;
    if modifyOk {
      WriteDoneStatus(t, s.vars.email, KeyGen(digest, PWD_LENGTH));
    } else {
      WriteFailedStatus(t, s.vars.email);
    }
  }

  lemma WriteDoneStatus(t: State, mail: string, pwd: string)
    ensures AddError(SendMail(AddError(t, MsgChanged(mail), "success"), mail, SUBJECT_CHANGED, pwd),
                     MsgPwdSent(mail), "info").vars.errors
         == t.vars.errors + WriteOutcome(mail, true)
  {
  }

  lemma WriteFailedStatus(t: State, mail: string)
    ensures AddError(t, MsgWriteFailed(mail), "danger").vars.errors == t.vars.errors + WriteOutcome(mail, false)
  {
  }

  /** A single match: the match message, then the write. */
  lemma ChangeSearchOne(s: State, dir: Directory, digest: string)
    requires |dir.entries| == 1
    ensures ChangeSearch(s, dir, digest)
         == ChangeWrite(AddError(LdapSearch(s, MailFilter(s.vars.email), dir.entries), MsgFound(s.vars.email), "success"),
                        dir.entries[0].dn, dir.modifyOk, digest)
  {
  }

  lemma AppendAssoc(e: seq<string>, f: string, w: seq<string>)
    ensures e + [f] + w == e + ([f] + w)
  {
  }

  /** The messages the search by email adds: a warning unless exactly one
      entry matches, and otherwise the match and the write's messages. */
  lemma ChangeSearchStatus(s: State, dir: Directory, digest: string)
    ensures var mail := s.vars.email;
      ChangeSearch(s, dir, digest).vars.errors == s.vars.errors
        + (if |dir.entries| != 1 then [ErrorDump(MsgNotFound(mail), "warning")]
           else [ErrorDump(MsgFound(mail), "success")] + WriteOutcome(mail, dir.modifyOk))
  {
    var mail := s.vars.email;
    if |dir.entries| == 1 {
      var s1 := AddError(LdapSearch(s, MailFilter(mail), dir.entries), MsgFound(mail), "success");
      ChangeSearchOne(s, dir, digest);
      ChangeWriteStatus(s1, dir.entries[0].dn, dir.modifyOk, digest);
      AppendAssoc(s.vars.errors, ErrorDump(MsgFound(mail), "success"), WriteOutcome(mail, dir.modifyOk));
    }
  }

  /** What a connected "change" does: one connection; and once it succeeded,
      one close, the write and the mail of the search, and a scrubbed
      session that still holds the encoded password. */
  lemma {:induction false} ChangeConnectedEffects(s: State, dir: Directory, digest: string)
    ensures var r := ChangeConnected(s, dir, digest);
      var pwd := KeyGen(digest, PWD_LENGTH);
      var one := dir.connectOk && dir.bindOk && |dir.entries| == 1;
      && r.fx.connects == s.fx.connects + 1
      && r.fx.closes == s.fx.closes + (if dir.connectOk then 1 else 0)
      && r.fx.writes == s.fx.writes + (if one then [Write(dir.entries[0].dn, UnicodePwd(pwd))] else [])
      && r.fx.outbox == s.fx.outbox
           + (if one && dir.modifyOk then [Mail(s.vars.email, SUBJECT_CHANGED, pwd)] else [])
      && (dir.connectOk ==> Scrubbed(r.vars))
      && r.vars.unicodePwd == (if one then UnicodePwd(pwd) else s.vars.unicodePwd)
  {
    if dir.connectOk {
      var s7 := LdapBinding(LdapConnect(s, dir.connectOk), dir.bindOk);
      ChangeSearchEffects(s7, dir, digest);
    }
  }

  /** The messages a connected "change" adds to the status list. */
  lemma {:induction false} ChangeConnectedStatus(s: State, dir: Directory, digest: string)
    ensures ChangeConnected(s, dir, digest).vars.errors == s.vars.errors + ChangeOutcome(s.vars.email, dir)
  {
    if dir.connectOk && dir.bindOk {
      var s7 := LdapBinding(LdapConnect(s, true), true);
      ChangeSearchStatus(s7, dir, digest);
    }
  }

  /** The status list step "change" leaves when its four checks pass: the
      outcome of the connection, bind, search and write, in order; the scrub
      keeps it. A mail address matching no entry, or several, gets exactly
      one warning. */
  lemma {:induction false} ChangeStatus(s: State, getHash: Option<string>, dir: Directory, digest: string)
    ensures var r := ChangeStep(s, getHash, dir, digest);
      var ok := Validated(s.vars, CleanHash(getHash));
      && (ok ==> r.vars.errors == ChangeOutcome(s.vars.email, dir))
      && (ok && dir.connectOk && dir.bindOk && |dir.entries| != 1 ==>
            r.vars.errors == [ErrorDump(MsgNotFound(s.vars.email), "warning")])
  {
    var h := CleanHash(getHash);
    ChangeGuardChecks(s, h);
    ChangeConnectedStatus(ChangeGuard(s, h), dir, digest);
  }

  /** `ldap_modify` is called only when the four checks pass, the connection
      and the bind succeed and the search by email returns exactly one
      entry, and then on that entry with the encoded new password. */
  lemma {:induction false} ChangeWritesOnSingleMatch(s: State, getHash: Option<string>, dir: Directory, digest: string)
    ensures var r := ChangeStep(s, getHash, dir, digest);
      var wrote := Validated(s.vars, CleanHash(getHash)) && dir.connectOk && dir.bindOk && |dir.entries| == 1;
      r.fx.writes == s.fx.writes
        + (if wrote then [Write(dir.entries[0].dn, UnicodePwd(KeyGen(digest, PWD_LENGTH)))] else [])
  {
    var h := CleanHash(getHash);
    ChangeGuardChecks(s, h);
    ChangeConnectedEffects(ChangeGuard(s, h), dir, digest);
  }

  /** The credential mail goes out only when the write succeeded, to the
      session's address, carrying the new password. */
  lemma {:induction false} ChangeMailsOnSuccess(s: State, getHash: Option<string>, dir: Directory, digest: string)
    ensures var r := ChangeStep(s, getHash, dir, digest);
      var done := Validated(s.vars, CleanHash(getHash)) && dir.connectOk && dir.bindOk
        && |dir.entries| == 1 && dir.modifyOk;
      r.fx.outbox == s.fx.outbox
        + (if done then [Mail(s.vars.email, SUBJECT_CHANGED, KeyGen(digest, PWD_LENGTH))] else [])
  {
    var h := CleanHash(getHash);
    var g := ChangeGuard(s, h);
    ChangeGuardChecks(s, h);
    if Validated(s.vars, h) {
      ChangeConnectedEffects(g, dir, digest);
      assert g.vars.email == s.vars.email && g.fx == s.fx;
    }
  }

  /** Once a connection succeeded, step "change" closes it and scrubs the
      session, whatever the bind, search or write outcome; the encoded
      password and the status list survive the scrub. */
  lemma {:induction false} ChangeScrubs(s: State, getHash: Option<string>, dir: Directory, digest: string)
    requires Validated(s.vars, CleanHash(getHash)) && dir.connectOk
    ensures var r := ChangeStep(s, getHash, dir, digest);
      && Scrubbed(r.vars)
      && r.fx.connects == s.fx.connects + 1 && r.fx.closes == s.fx.closes + 1
      && r.vars.unicodePwd == (if dir.bindOk && |dir.entries| == 1
                               then UnicodePwd(KeyGen(digest, PWD_LENGTH)) else s.vars.unicodePwd)
  {
    var h := CleanHash(getHash);
    ChangeGuardChecks(s, h);
    ChangeConnectedEffects(ChangeGuard(s, h), dir, digest);
  }

  /** A scrubbed session blocks any confirmation: no connection, and the
      "no session hash" message (index.php:379). */
  lemma {:induction false} ScrubbedBlocksChange(s: State, getHash: Option<string>, dir: Directory, digest: string)
    requires Scrubbed(s.vars)
    ensures var r := ChangeStep(s, getHash, dir, digest);
      OnlyStatus(s, r) && ErrorDump(MSG_NO_SESSION_HASH, "danger") in r.vars.errors
  {
    ChangeGuardChecks(s, CleanHash(getHash));
  }

  /** Replay: after a confirmation that reached the directory, presenting any
      token again, the same one included, attempts no connection. */
  lemma {:induction false} ReplayFails(s: State, getHash: Option<string>, dir: Directory, digest: string,
                                       again: Option<string>, dir2: Directory, digest2: string)
    requires Validated(s.vars, CleanHash(getHash)) && dir.connectOk
    ensures var r := ChangeStep(s, getHash, dir, digest);
      var r2 := ChangeStep(r, again, dir2, digest2);
      r2.fx == r.fx && ErrorDump(MSG_NO_SESSION_HASH, "danger") in r2.vars.errors
  {
    ChangeScrubs(s, getHash, dir, digest);
    var r := ChangeStep(s, getHash, dir, digest);
    ScrubbedBlocksChange(r, again, dir2, digest2);
  }

  /** A presented token that differs from the stored one: no connection,
      and the "no request" message. */
  lemma {:induction false} WrongTokenRejected(s: State, getHash: Option<string>, dir: Directory, digest: string)
    requires CleanHash(getHash) != s.vars.hash
    ensures var r := ChangeStep(s, getHash, dir, digest);
      OnlyStatus(s, r) && ErrorDump(MSG_NO_REQUEST, "danger") in r.vars.errors
  {
    ChangeGuardChecks(s, CleanHash(getHash));
  }

  /** Two entries for the bound address: a warning alone, and no write. */
  lemma {:induction false} AmbiguousMailRejected(s: State, getHash: Option<string>, dir: Directory, digest: string)
    requires Validated(s.vars, CleanHash(getHash)) && dir.connectOk && dir.bindOk && |dir.entries| == 2
    ensures var r := ChangeStep(s, getHash, dir, digest);
      && r.fx.writes == s.fx.writes && r.fx.outbox == s.fx.outbox
      && r.vars.errors == [ErrorDump(MsgNotFound(s.vars.email), "warning")]
  {
    ChangeWritesOnSingleMatch(s, getHash, dir, digest);
    ChangeMailsOnSuccess(s, getHash, dir, digest);
    ChangeStatus(s, getHash, dir, digest);
  }

  // ---------------------------------------------------------------------------
  // The two steps together

  /** The token round trip: after a successful "check" on an MD5 digest and
      an entry with a mail address, presenting the token that the
      confirmation mail carries passes all four checks of "change". */
  lemma {:induction false} TokenRoundTrip(s: State, txtLogin: Option<string>, dir: Directory, digest: string)
    requires CleanLogin(txtLogin) != "" && dir.connectOk && dir.bindOk && |dir.entries| > 0
    requires dir.entries[0].mail != "" && IsHexDigest(digest)
    ensures var r := CheckStep(s, txtLogin, dir, digest);
      && |r.fx.outbox| > 0
      && Validated(r.vars, CleanHash(Some(r.fx.outbox[|r.fx.outbox| - 1].carries)))
  {
    CheckFound(s, txtLogin, dir, digest);
    var r := CheckStep(s, txtLogin, dir, digest);
    var token := r.fx.outbox[|r.fx.outbox| - 1].carries;
    assert token == KeyGen(digest, KEY_DEFAULT_LENGTH);
    TokenSurvivesClean(digest, KEY_DEFAULT_LENGTH);
    KeyGenLength(digest, KEY_DEFAULT_LENGTH);
  }

  /** The happy path end to end, on a session with nothing sent yet: one
      confirmation mail, then, on the token it carries and a single matching
      entry, one write and one credential mail to the same address, and a
      scrubbed session. */
  lemma {:induction false} HappyPath(s: State, txtLogin: Option<string>, e: Entry, digest: string, digest2: string)
    requires s.fx.writes == [] && s.fx.outbox == []
    requires CleanLogin(txtLogin) != "" && e.mail != "" && IsHexDigest(digest)
    ensures var d := Directory(true, true, [e], true);
      var r1 := CheckStep(s, txtLogin, d, digest);
      var token := KeyGen(digest, KEY_DEFAULT_LENGTH);
      var r2 := ChangeStep(r1, Some(token), d, digest2);
      && r1.fx.outbox == [Mail(e.mail, SUBJECT_REQUEST, token)]
      && r2.fx.writes == [Write(e.dn, UnicodePwd(KeyGen(digest2, PWD_LENGTH)))]
      && r2.fx.outbox == r1.fx.outbox + [Mail(e.mail, SUBJECT_CHANGED, KeyGen(digest2, PWD_LENGTH))]
      && Scrubbed(r2.vars)
  {
    var d := Directory(true, true, [e], true);
    CheckFound(s, txtLogin, d, digest);
    CheckConnections(s, txtLogin, d, digest);
    TokenRoundTrip(s, txtLogin, d, digest);
    var r1 := CheckStep(s, txtLogin, d, digest);
    HappyChange(r1, Some(KeyGen(digest, KEY_DEFAULT_LENGTH)), e, digest2);
  }

  /** The second half of the happy path: a validated confirmation, against a
      directory holding one entry for the bound address. */
  lemma {:induction false} HappyChange(r1: State, token: Option<string>, e: Entry, digest2: string)
    requires Validated(r1.vars, CleanHash(token)) && r1.vars.email == e.mail
    ensures var d := Directory(true, true, [e], true);
      var r2 := ChangeStep(r1, token, d, digest2);
      && r2.fx.writes == r1.fx.writes + [Write(e.dn, UnicodePwd(KeyGen(digest2, PWD_LENGTH)))]
      && r2.fx.outbox == r1.fx.outbox + [Mail(e.mail, SUBJECT_CHANGED, KeyGen(digest2, PWD_LENGTH))]
      && Scrubbed(r2.vars)
  {
    var d := Directory(true, true, [e], true);
    ChangeWritesOnSingleMatch(r1, token, d, digest2);
    ChangeMailsOnSuccess(r1, token, d, digest2);
    ChangeScrubs(r1, token, d, digest2);
  }
}
