# LDAP password reset, modelled in Dafny

A model of `index.php`, a single-page PHP script that resets a user's
Active Directory password in two steps:

- "check": the user submits a login. The script sanitises the login and
  searches the directory for it. On a match it keeps the login, the
  entry's mail address and a random key in the session, and mails the key
  in a confirmation link.
- "change": the user follows the link. The script compares the presented
  key with the session's key. It then searches the directory by the
  stored address. On exactly one match it writes a fresh password, encoded
  for `unicodePwd`, mails that password, and scrubs the session.

The modules follow the script's parts:

- `Text` covers the string helpers:
  - `stripAccents`, built on a model of PHP's `strtr` with its positional
    semantics;
  - `stripQuotes`, `stripSpaces`, `strClean` and ASCII `strtolower`.
- `Keys` covers `keyGen`: the substring cut from a 32-digit hex digest,
  and the `strtr` that replaces ambiguous characters.
- `Password` covers `pwdEncode`, as an imperative loop proved against a
  reference function. It also defines the inverse decoding.
- `Status` covers `errorDump`, the status `<div>` with its class switch.
- `Workflow` models the session and the outside world as values:
  - `Vars` holds the `$_SESSION` keys;
  - `Effects` holds the connections, closes, search filters,
    `ldap_modify` calls and mails sent;
  - `ClearVars`, `CheckStep` and `ChangeStep` are functions over these
    values, and the lemmas state the properties of the two steps.
- `Session` holds the class `ResetSession`. Its fields are the session
  keys and effects, and its methods update them in place, in the script's
  statement order. Each method ensures that the new `State()` is the
  matching `Workflow` function of the old state.

The directory's answers are parameters (type `Directory`):

- whether `ldap_connect` gives a handle;
- whether the bind succeeds;
- the entries the search returns;
- whether `ldap_modify` succeeds.

The MD5 digest that `keyGen` cuts its key from is a parameter too.

## Model

| member | source | states |
|---|---|---|
| Text.Strtr | index.php:128-130 | PHP `strtr` with two strings: the same length as the input; each character is mapped by its last position in the first `min(|from|,|to|)` characters of `from` |
| Text.MapCharOutside | index.php:128-130 | a character that is not in the used part of `from` is left unchanged by `strtr` |
| Text.MapCharDistinct | index.php:128-130 | when `from` has no repeats, the k-th character of `from` maps to the k-th character of `to` |
| Text.StrtrAccentsIsFold | index.php:128-130 | the `strtr` in `stripAccents` equals a letter-group reference folding (`FoldAccent`) on every character |
| Text.StripAccents | index.php:128-130 | keeps the length; each output character is the folding of the input character; no accented character is left |
| Text.StripAccentsPositional | index.php:128-130 | each of the 51 listed accented characters becomes the plain letter at the same position |
| Text.FoldChangesExactlyAccented | index.php:128-130 | folding changes a character if and only if it is one of the 51 listed characters, so every other character is unchanged |
| Text.AccentTableSizes | index.php:128-130 | both `strtr` tables have 51 characters |
| Text.RemoveChar | index.php:136-146 | `str_replace` of one character by '': a character is kept iff it is kept in the input and is not the removed one; counts are unchanged except the removed character, which drops to zero |
| Text.StripQuotes | index.php:136-138 | no `'` and no `"` remain; everything else is kept with its count |
| Text.StripSpaces | index.php:144-146 | no space remains; everything else is kept with its count |
| Text.RemoveCharConcat | index.php:136-146 | `str_replace` works piece by piece: removing from `a + b` gives the removal from `a` followed by the removal from `b`, so the kept characters stay in order |
| Text.RemoveCharSingle | index.php:136-146 | on one character, the result is empty if it is the removed character and that character otherwise |
| Text.ToLower | index.php:155 | keeps the length; maps each character to its ASCII lower case; leaves no upper-case letter |
| Text.StrClean | index.php:153-157 | the result has no accented character, space or quote; with `$toLower` it has no upper-case letter |
| Text.StrCleanContents | index.php:153-157 | without `$toLower`, the result holds the accent-folded input's characters less quotes and spaces; with `$toLower`, it is the same string lower-cased |
| Text.StrCleanConcat | index.php:153-157 | `strClean` of `a + b` is `strClean` of `a` followed by `strClean` of `b`, in both modes |
| Text.StrCleanSingle | index.php:153-157 | `strClean` without lower-casing drops a space or a quote and folds any other character; with `StrCleanConcat` this fixes the whole result, characters and order |
| Text.FilterMetacharactersKept | index.php:153-157 | a string made of `*`, `(`, `)` and `\` only, such as `*)(`, comes out of `strClean` unchanged in both modes |
| Text.StrCleanOnClean | index.php:153-157 | on a string with nothing to remove, the result is the input, or its lower case when `$toLower` is set |
| Text.StrCleanIdempotent | index.php:153-157 | cleaning a cleaned string again changes nothing |
| Text.ToLowerKeepsClean | index.php:155 | lower-casing never reintroduces a removed character |
| Keys.Substr | index.php:209 | PHP `substr($s, 2, $length)`: empty past the end; otherwise `min(length, |s|-start)` characters from `start` |
| Keys.StrtrIsDisambiguate | index.php:211 | the `strtr` in `keyGen` maps `o0OQCiIl15Ss7` to `BEFHJKMNPRTUV` by position and leaves everything else unchanged |
| Keys.KeyGen | index.php:207-213 | the key's length is `min(length, |digest|-2)`; character i is the disambiguated lower case of digest character i+2 |
| Keys.KeyGenUnambiguous | index.php:207-213 | a key never holds any of `o0OQCiIl15Ss7`, nor `W` or `X`; each character is the lowercased digest character or one of the first 13 replacements |
| Keys.KeyGenLength | index.php:207-213 | on a 32-digit hex digest the key has `min(length, 30)` characters (so 15 by default, 8 for passwords) |
| Keys.KeyGenOnHex | index.php:207-213 | on a hex digest every key character is in `234689abcdefEPRV` |
| Keys.TokenSurvivesClean | index.php:207-213 | `strClean` without lower-casing leaves a key unchanged, so the token in the link is compared intact at line 382 |
| Keys.LowercasingBreaksToken | index.php:207-213 | on a hex digest, any key holding an upper-case letter (a replacement letter) is changed by `strClean(…, true)`; only the `false` mode used at line 373 keeps tokens intact |
| Keys.KeyStartsUpper | index.php:207-213 | such keys exist: a digest with `0` at offset 2 gives a key starting with `E` |
| Password.Widen | index.php:224-226 | each character followed by a NUL: twice the length, characters in even positions, NUL in odd positions |
| Password.UnicodePwd | index.php:219-230 | the encoding has length 2(n+2); a quote at both ends; the password's characters at even positions 2..2n; NUL at every odd position |
| Password.WidenSnoc | index.php:225-226 | one more loop iteration appends the character and a NUL |
| Password.PwdEncode | index.php:219-230 | the loop's result equals the reference encoding `UnicodePwd` |
| Password.Narrow | index.php:224-226 | the decoder's result, when there is one, is half the input's length |
| Password.NarrowWiden | index.php:224-226 | dropping the NULs recovers the widened string |
| Password.PwdRoundTrip | index.php:219-230 | decoding the encoding recovers the password |
| Password.PwdEncodeExample | index.php:219-230 | the encoding of `Ab1` is `"`,NUL,`A`,NUL,`b`,NUL,`1`,NUL,`"`,NUL |
| Status.DivClass | index.php:180-198 | the class is one of the five kinds: the kind itself when it is one of them, "primary" otherwise |
| Status.ErrorDump | index.php:178-201 | the markup is the opening `<div>` of the chosen class, then the message unescaped, then `</div>` |
| Status.ErrorDumpRoundTrip | index.php:178-201 | the class and the message can be read back from the markup |
| Workflow.ClearVars | index.php:162-171 | the eight keys are blank; `unicodePwd` and `errors` are kept |
| Workflow.ClearVarsFrame | index.php:162-171 | clearVars changes a session iff it is not already scrubbed; it is idempotent; its result depends only on `errors` and `unicodePwd` |
| Workflow.CheckStep | index.php:271-364 | whatever the input and the directory's answers, step "check" leaves at least one status message |
| Workflow.CheckEmptyLogin | index.php:277-283 | an empty cleaned login gives exactly one danger message, and nothing else changes (no connection) |
| Workflow.CheckSearchEffects | index.php:303-345 | the search sends the login filter. On a match the login, the first entry's mail and a new key are stored, one mail carrying the key is sent, and the match and the mailing are reported. Otherwise none of those is touched and exactly one warning is added |
| Workflow.CheckConnectedEffects | index.php:287-360 | one connect; a close iff it succeeded; a filter iff the bind succeeded; no directory write; the search's effects only when connected and bound; the messages added are those of `CheckOutcome`: a danger for a failed connect or bind, a warning on no match, the match and the mailing otherwise |
| Workflow.CheckStatus | index.php:274-360 | the status list "check" leaves is restarted and holds the empty-login danger alone, or `CheckOutcome`; on a miss it is exactly one warning |
| Workflow.CheckFound | index.php:307-341 | when count > 0, `login`, `email` and `hash` are set to the cleaned login, the first entry's mail and the key; exactly one mail, carrying the key, goes to that address |
| Workflow.CheckNoMatch | index.php:288-360 | with no match, or no bind, or no connection, `login`, `email` and `hash` are untouched and no mail goes out |
| Workflow.CheckConnections | index.php:283-360 | a connection is tried iff the cleaned login is non-empty; it is closed iff connect succeeded; step "check" never writes |
| Workflow.CheckFilterSanitised | index.php:277-304 | the only filter sent embeds the cleaned login, which has no space, quote, accent or upper-case letter; it is sent iff the login is non-empty and connect and bind succeed |
| Workflow.ChangeStep | index.php:367-482 | whatever the input, the session and the directory's answers, step "change" leaves at least one status message |
| Workflow.ChangeGuardChecks | index.php:370-385 | each failing check adds one danger message; nothing else changes; the list is empty iff all four checks pass |
| Workflow.ChangeValidation | index.php:370-392 | a connection is tried iff all four checks pass; otherwise the only change is one danger message per failing check |
| Workflow.ChangeSearchEffects | index.php:408-460 | a write on the single entry's dn with the encoded new password iff exactly one entry matched; a credential mail iff that write succeeded |
| Workflow.ChangeSearchStatus | index.php:416-460 | the search by email adds exactly one warning unless exactly one entry matches; otherwise the match message, then the write's messages |
| Workflow.ChangeWriteEffects | index.php:421-455 | the write sends the encoded new password to the given dn and keeps the encoding; the credential mail goes to the session's address iff the write succeeded |
| Workflow.ChangeWriteStatus | index.php:431-455 | after the write: the change and the mailed-password messages when `ldap_modify` succeeded, a danger for a failed write otherwise |
| Workflow.ChangeConnectedStatus | index.php:392-478 | a connected "change" adds the messages of `ChangeOutcome`: a danger for a failed connect or bind, a warning unless exactly one entry matches, then the match and the write's messages; the scrub keeps them |
| Workflow.ChangeConnectedEffects | index.php:392-478 | one connect; a close iff it succeeded; the search's write and mail only when connected and bound; scrubbed whenever connected; the encoded password is kept |
| Workflow.ChangeStatus | index.php:388-478 | when the four checks pass, the status list is `ChangeOutcome` of the session's address; a mail address with no entry or several gets exactly one warning |
| Workflow.ChangeWritesOnSingleMatch | index.php:388-431 | `ldap_modify` is called, once, iff the checks pass, connect and bind succeed and count == 1 |
| Workflow.ChangeMailsOnSuccess | index.php:431-455 | the credential mail, carrying the new password, is sent iff `ldap_modify` succeeded |
| Workflow.ChangeScrubs | index.php:392-473 | once connect succeeded, the connection is closed and the session scrubbed whatever the bind, search or write gave |
| Workflow.ScrubbedBlocksChange | index.php:379-388 | on a scrubbed session, "change" changes only the status list, and that list holds the "no session hash" message |
| Workflow.ReplayFails | index.php:379-473 | after a connected "change", presenting any token, the same one included, has no outside effect at all (no connection, write or mail) and gives the "no session hash" message |
| Workflow.WrongTokenRejected | index.php:382-388 | a token that differs from the session's changes only the status list, which holds the "no request" message |
| Workflow.AmbiguousMailRejected | index.php:416-460 | two entries for the address: no write, no mail, and the status list is the one "not found" warning |
| Workflow.TokenRoundTrip | index.php:316-388 | after a successful "check" on a hex digest and an entry with a mail address, the token the mail carries passes all four checks |
| Workflow.HappyPath | index.php:271-482 | with nothing sent yet: one confirmation mail; then, with its token and one matching entry, one write and one credential mail to the same address, and the session is scrubbed |
| Workflow.HappyChange | index.php:367-482 | a validated "change" against one entry for the bound address writes, mails, and scrubs |
| Session.ResetSession.constructor | index.php:271 | a fresh session has every key blank and nothing done yet |
| Session.ResetSession.ClearVars | index.php:162-171 | the object's new state is `Workflow.ClearVars` of the old one |
| Session.ResetSession.ClearRequestKeys | index.php:163-166 | blanks `email`, `pwd`, `login` and `hash`; nothing else changes |
| Session.ResetSession.ClearDirectoryKeys | index.php:167-170 | blanks `ldapID`, `ldapBinding`, `ldapSearch` and `userDn`; nothing else changes |
| Session.ResetSession.Check | index.php:271-364 | the object's new state is `Workflow.CheckStep` of the old one |
| Session.ResetSession.CheckSearch | index.php:303-345 | the object's new state is `Workflow.CheckSearch` of the old one |
| Session.ResetSession.Change | index.php:367-482 | the object's new state is `Workflow.ChangeStep` of the old one |
| Session.ResetSession.ChangeGuard | index.php:370-385 | the object's new state is `Workflow.ChangeGuard` of the old one |
| Session.ResetSession.ChangeConnected | index.php:388-480 | the object's new state is `Workflow.ChangeConnected` of the old one |
| Session.ResetSession.ChangeSearch | index.php:408-460 | the object's new state is `Workflow.ChangeSearch` of the old one |
| Session.ResetSession.ChangeWrite | index.php:421-455 | the object's new state is `Workflow.ChangeWrite` of the old one |
| Session.ResetSession.WriteNewPassword | index.php:421-431 | stores the new password, its dn and its encoding, and records one `ldap_modify` call |
| Session.ResetSession.LdapConnect | index.php:63-70 | the handle is stored in the session; one connection attempt is recorded |
| Session.ResetSession.LdapBinding | index.php:79-83 | the bind result is stored in the session |
| Session.ResetSession.LdapSearch | index.php:93-98 | the entries are stored in the session; the filter is recorded |
| Session.ResetSession.LdapModify | index.php:431 | records the `ldap_modify` call on the dn with the encoded password and returns the directory's answer; nothing else changes |
| Session.ResetSession.LdapClose | index.php:104-106 | one close is recorded |
| Session.ResetSession.SendMail | index.php:114-122 | when `SEND_MAIL` is set, one mail is recorded |
| Session.ResetSession.AddError | index.php:309 | one status `<div>` is appended |

Behaviour of the code that a reader might not expect, as the model states it:

- Once the connection succeeded, "change" scrubs the session on every
  path, including a failed bind, search or write (index.php:473). A user
  whose write failed therefore cannot retry with the same link.
  `ChangeScrubs` states this.
- Keys are not lower-case. `keyGen` lower-cases the digest first, but its
  `strtr` then brings in upper-case replacements, so keys on a hex digest
  can contain `E`, `P`, `R` and `V` (`KeyGenOnHex`, `KeyStartsUpper`).
  This is why line 373 must not lower-case the token
  (`LowercasingBreaksToken`).
- A key is not always as long as requested. On an MD5 digest it has
  `min(length, 30)` characters (`KeyGenLength`).
- "check" accepts the first of any number of matches (`count > 0`, line
  307). "change" requires exactly one (`count == 1`, line 416). The model
  keeps this asymmetry.
- A "check" that finds no entry (or cannot connect or bind) leaves
  `login`, `email` and `hash` as they were. An earlier request's token
  stays valid after a later failed request on the same session
  (`CheckNoMatch`).
- Nothing to fix, but the model makes two things visible:
  - `strClean` removes no LDAP filter metacharacter, so `(`, `)`, `*` and
    `\` reach the filter (`FilterMetacharactersKept`, and
    `CheckFilterSanitised` says only what is removed);
  - `errorDump` pastes messages, including the login and the mail
    address, into HTML unescaped.

The status lists are written out case by case in `Workflow.CheckOutcome`,
`Workflow.ChangeOutcome` and `Workflow.WriteOutcome`, reference
definitions that the status lemmas relate to the steps.

## Left out

- The LDAP calls (`ldap_connect`, `ldap_set_option`, `ldap_bind`,
  `ldap_search`, `ldap_get_entries`, `ldap_modify`, `ldap_close`) talk to
  a server. Their outcomes are the `Directory` parameter. A failed search
  appears as an empty entry list, the way PHP's `count` of a false result
  reads 0. `LDAP_ANON` is false, so only the authenticated bind is
  modelled.
- `mail()`, its headers and the HTML bodies are I/O. A sent mail is
  recorded as recipient, subject, and the secret it carries.
- MD5, `uniqid` and `rand` are a hash and a randomness source. The digest
  is a parameter, and properties that need its shape assume 32 hex
  digits.
- `strtr` on UTF-8 input works byte by byte in PHP. The model works on
  characters, so multi-byte accented letters are folded as whole
  characters.
- PHP's loose `!=` and `==` are modelled as string comparison. For two
  numeric strings PHP compares numbers instead, for example `"1e1" ==
  "10"`. Keys keep the hex letters `a` to `f`, so a key of the form
  `<digits>e<digits>` or `<digits>E<digits>` is numeric, and so is a key
  made only of the digits 2, 3, 4, 6, 8 and 9.
- Workflow.WrongTokenRejected: does not cover two different strings that
  PHP compares as equal numbers, such as a numeric key and the same number
  written another way, for which the script's `!=` at line 382 is false
  and the token is accepted.
- The reset of `$_SESSION['errors']` after the page is rendered
  (index.php:531) is not modelled. Both steps restart the list before
  adding to it, so it changes nothing the model states.
- `strtolower` depends on the locale. The model lower-cases ASCII only.
- HTML rendering, `varDump`, `redirect` and the page template are
  rendering, not state. `_debug` adds only when `DEBUG_MODE` is on, and
  `DEBUG_MODE` is false, so debug output is left out.
- Session persistence between requests, session start and concurrent
  requests on one session are left out. Each step is one function from
  state to state.
- `$_SESSION['unicodePwd']` holds the array `['unicodePwd' => [encoded]]`.
  The model keeps only the encoded string.
- The URL built for the confirmation link is not modelled. The mail
  records the token it carries.
