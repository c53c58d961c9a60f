/** The reset script run against one PHP session: `$_SESSION` as an object
    whose fields the two steps update in place, plus a record of what the
    script did to the directory and the mail server. Every method's new
    state is the corresponding function of module Workflow applied to the
    old state, so the properties proved there hold of these methods. */
module Session {
  import opened Wrappers
  import opened Text
  import opened Keys
  import opened Password
  import opened Status
  import W = Workflow

  class ResetSession {
    // The `$_SESSION` keys.
    var email: string
    var pwd: string
    var login: string
    var hash: string
    var ldapID: W.Slot<bool>
    var ldapBinding: W.Slot<bool>
    var ldapSearch: W.Slot<seq<W.Entry>>
    var userDn: string
    var unicodePwd: string
    var errors: seq<string>
    // What the outside world saw.
    var connects: nat
    var closes: nat
    var filters: seq<string>
    var writes: seq<W.Write>
    var outbox: seq<W.Mail>

    /** The session and the effects as a value. */
    function State(): W.State
      reads this
    {
      W.State(W.Vars(email, pwd, login, hash, ldapID, ldapBinding, ldapSearch, userDn, unicodePwd, errors),
              W.Effects(connects, closes, filters, writes, outbox))
    }

    /** A fresh session: no key set, nothing done yet. */
    constructor()
      ensures State() == W.State(W.EMPTY_VARS, W.NO_EFFECTS)
    {
      email, pwd, login, hash := "", "", "", "";
      ldapID, ldapBinding, ldapSearch := W.Blank, W.Blank, W.Blank;
      userDn, unicodePwd, errors := "", "", [];
      connects, closes, filters, writes, outbox := 0, 0, [], [], [];
    }

    /** `$_SESSION['errors'][] = errorDump($msg, $kind)`. */
    method AddError(msg: string, kind: string)
      modifies this
      ensures State() == W.AddError(old(State()), msg, kind)
    {
      errors := errors + [ErrorDump(msg, kind)];
    }

    /** `ldapConnect` (index.php:63-70); `ok` is the directory's answer. */
    method LdapConnect(ok: bool) returns (id: bool)
      modifies this
      ensures id == ok
      ensures State() == W.LdapConnect(old(State()), ok)
    {
      connects := connects + 1;
      ldapID := W.Held(ok);
      id := ok;
    }

    /** `ldapBinding` (index.php:79-83). */
    method LdapBinding(ok: bool) returns (binding: bool)
      modifies this
      ensures binding == ok
      ensures State() == W.LdapBinding(old(State()), ok)
    {
      ldapBinding := W.Held(ok);
      binding := ok;
    }

    /** `ldapSearch` (index.php:93-98). */
    method LdapSearch(filter: string, entries: seq<W.Entry>) returns (search: seq<W.Entry>)
      modifies this
      ensures search == entries
      ensures State() == W.LdapSearch(old(State()), filter, entries)
    {
      filters := filters + [filter];
      ldapSearch := W.Held(entries);
      search := entries;
    }

    /** `ldapClose` (index.php:104-106). */
    method LdapClose()
      modifies this
      ensures State() == W.LdapClose(old(State()))
    {
      closes := closes + 1;
    }

    /** `ldap_modify` on the `unicodePwd` attribute of `dn`. */
    method LdapModify(dn: string, encoded: string, ok: bool) returns (done: bool)
      modifies this
      ensures done == ok
      ensures State() == old(State()).(fx := old(State()).fx.(writes := old(writes) + [W.Write(dn, encoded)]))
    {
      writes := writes + [W.Write(dn, encoded)];
      done := ok;
    }

    /** `sendMail` (index.php:114-122). */
    method SendMail(to: string, subject: string, carries: string)
      modifies this
      ensures State() == W.SendMail(old(State()), to, subject, carries)
    {
      if W.SEND_MAIL {
        outbox := outbox + [W.Mail(to, subject, carries)];
      }
    }

    /** `clearVars` (index.php:162-171). */
    method ClearVars()
      modifies this
      ensures State() == W.State(W.ClearVars(old(State()).vars), old(State()).fx)
    {
      ClearRequestKeys();
      ClearDirectoryKeys();
    }

    /** The first four keys clearVars blanks: the request's address, new
        password, login and key. */
    method ClearRequestKeys()
      modifies this
      ensures State() == W.State(old(State()).vars.(email := "", pwd := "", login := "", hash := ""), old(State()).fx)
    {
      email, pwd, login, hash := "", "", "", "";
    }

    /** The other four: the directory handle, bind result, search result and
        entry dn. */
    method ClearDirectoryKeys()
      modifies this
      ensures State() == W.State(old(State()).vars.(ldapID := W.Blank, ldapBinding := W.Blank,
                                                   ldapSearch := W.Blank, userDn := ""), old(State()).fx)
    {
      ldapID, ldapBinding, ldapSearch, userDn := W.Blank, W.Blank, W.Blank, "";
    }

    /** Step "check" (index.php:271-364). */
    method Check(txtLogin: Option<string>, dir: W.Directory, digest: string)
      modifies this
      ensures State() == W.CheckStep(old(State()), txtLogin, dir, digest)
    {
      errors := [];
      var login := if txtLogin.Some? then StrClean(txtLogin.value, true) else "";
      if login == "" {
        AddError(W.MSG_NO_LOGIN, "danger");
      }
      if errors == [] {
        var id := LdapConnect(dir.connectOk);
        if id {
          var bound := LdapBinding(dir.bindOk);
          if bound {
            CheckSearch(login, dir.entries, digest);
          } else {
            AddError(W.MSG_BIND, "danger");
          }
          LdapClose();
        } else {
          AddError(W.MSG_CONNECT, "danger");
        }
      }
    }

    /** The search by login and its outcome (index.php:303-345). */
    method CheckSearch(login: string, entries: seq<W.Entry>, digest: string)
      modifies this
      ensures State() == W.CheckSearch(old(State()), login, entries, digest)
    {
      var search := LdapSearch(W.LoginFilter(login), entries);
      if |search| > 0 {
        AddError(W.MsgFound(login), "success");
        ghost var s2 := State();
        this.login, email, hash := login, search[0].mail, KeyGen(digest, KEY_DEFAULT_LENGTH);
        assert State() == W.StoreRequest(s2, login, search[0].mail, hash);
        SendMail(email, W.SUBJECT_REQUEST, hash);
        AddError(W.MsgRequestSent(email), "info");
      } else {
        AddError(W.MsgNotFound(login), "warning");
      }
    }

    /** Step "change" (index.php:367-482). */
    method Change(getHash: Option<string>, dir: W.Directory, digest: string)
      modifies this
      ensures State() == W.ChangeStep(old(State()), getHash, dir, digest)
    {
      var given := if getHash.Some? then StrClean(getHash.value, false) else "";
      ChangeGuard(given);
      if errors == [] {
        ChangeConnected(dir, digest);
      }
    }

    /** The status list restarted, and the four checks (index.php:370-385). */
    method ChangeGuard(given: string)
      modifies this
      ensures State() == W.ChangeGuard(old(State()), given)
    {
      errors := [];
      if given == "" {
        AddError(W.MSG_NO_HASH, "danger");
      }
      if hash == "" {
        AddError(W.MSG_NO_SESSION_HASH, "danger");
      }
      if given != hash {
        AddError(W.MSG_NO_REQUEST, "danger");
      }
      if email == "" {
        AddError(W.MSG_NO_EMAIL, "danger");
      }
    }

    /** From the connection to its close and the scrub (index.php:388-480). */
    method ChangeConnected(dir: W.Directory, digest: string)
      modifies this
      ensures State() == W.ChangeConnected(old(State()), dir, digest)
    {
      var id := LdapConnect(dir.connectOk);
      if id {
        var bound := LdapBinding(dir.bindOk);
        if bound {
          ChangeSearch(dir, digest);
        } else {
          AddError(W.MSG_BIND, "danger");
        }
        LdapClose();
        if !W.DEBUG_MODE {
          ClearVars();
        }
      } else {
        AddError(W.MSG_CONNECT, "danger");
      }
    }

    /** The search by email (index.php:408-460). */
    method ChangeSearch(dir: W.Directory, digest: string)
      modifies this
      ensures State() == W.ChangeSearch(old(State()), dir, digest)
    {
      var mail := email;
      var search := LdapSearch(W.MailFilter(mail), dir.entries);
      if |search| == 1 {
        AddError(W.MsgFound(mail), "success");
        ChangeWrite(search[0].dn, dir.modifyOk, digest);
      } else {
        AddError(W.MsgNotFound(mail), "warning");
      }
    }

    /** The new password, the write and the credential mail
        (index.php:421-455). */
    method ChangeWrite(userDn: string, modifyOk: bool, digest: string)
      modifies this
      ensures State() == W.ChangeWrite(old(State()), userDn, modifyOk, digest)
    {
      var mail := email;
      var done := WriteNewPassword(userDn, modifyOk, digest);
      if done {
        AddError(W.MsgChanged(mail), "success");
        SendMail(email, W.SUBJECT_CHANGED, pwd);
        AddError(W.MsgPwdSent(email), "info");
      } else {
        AddError(W.MsgWriteFailed(mail), "danger");
      }
    }

    /** A new password, kept in the session with its encoding, and the
        `ldap_modify` call that carries it (index.php:421-431). */
    method WriteNewPassword(userDn: string, modifyOk: bool, digest: string) returns (done: bool)
      modifies this
      ensures done == modifyOk
      ensures State() == W.ChangeWritten(old(State()), userDn, digest)
    {
      ghost var s0 := State();
      var newPwd := KeyGen(digest, W.PWD_LENGTH);
      var encoded := PwdEncode(newPwd);
      pwd, this.userDn, unicodePwd := newPwd, userDn, encoded;
      assert State().vars == s0.vars.(pwd := newPwd, userDn := userDn, unicodePwd := encoded);
      done := LdapModify(userDn, encoded, modifyOk);
    }
  }
}
