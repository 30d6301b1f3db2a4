/** The client-side session (contexts/AuthContext.tsx): the logged-in
    officer, the access token, the list of officers allowed to log in locally
    and the browser storage they are persisted in. Login tries the server
    first, then an exact local match, then the alternate passwords. */
module AuthContext {
  import opened Base
  import opened Text
  import opened Types

  /** An officer with the password the local login checks. */
  datatype Credencial = Credencial(policial: Policial, senha: string)

  const UserKey := "bo_user"
  const TokenKey := "bo_token"
  const PoliciaisKey := "bo_policiais"

  /** The five officers every session starts with. */
  function Seeded(): (r: seq<Credencial>)
    ensures |r| == 5
    ensures forall i :: 0 <= i < 5 ==> r[i].senha == "pn2024" && r[i].policial.id == NatToString(i + 1)
  {
    [ Credencial(Policial("1", "Comandante João Silva Muana", "Comandante", "PN001234", None, None), "pn2024"),
      Credencial(Policial("2", "Subcomissário Maria Santos Capita", "Subcomissário", "PN002345", None, None), "pn2024"),
      Credencial(Policial("3", "Aspirante Carlos Eduardo Miguel", "Aspirante", "PN003456", None, None), "pn2024"),
      Credencial(Policial("4", "Agente Ana Paula Francisco", "Agente", "PN004567", None, None), "pn2024"),
      Credencial(Policial("5", "Agente Principal António Sebastião", "Agente Principal", "PN005678", None, None), "pn2024") ]
  }

  /** What the login request to the server came to: an answer (its `ok`
      flag, its `access_token`, empty when absent, and its officer) or a
      thrown error. */
  datatype RemoteOutcome = Threw | Answered(ok: bool, accessToken: string, policial: Policial)

  /** The badge numbers agree up to case. */
  predicate SameBadge(c: Credencial, matricula: string)
  {
    ToUpper(c.policial.matricula) == ToUpper(matricula)
  }

  /** The exact local match: same badge up to case, same password. */
  predicate ExactMatch(c: Credencial, matricula: string, senha: string)
  {
    SameBadge(c, matricula) && c.senha == senha
  }

  /** The alternate match: same badge up to case and one of the fixed
      passwords, whatever the stored one is. */
  predicate AlternateMatch(c: Credencial, matricula: string, senha: string)
  {
    SameBadge(c, matricula) && (senha == "pn2024" || senha == ToLower(c.policial.matricula) || senha == "123456")
  }

  /** Which step of the login chain succeeds. */
  datatype LoginResult =
    | RemoteSession(user: Policial, token: string)
    | LocalSession(user: Policial)
    | Rejected

  /** The login chain in its order: a server answer that is ok and carries
      a token; else the first exact local match; else the first alternate
      match; else rejection. A local session's user is the record without its
      password. */
  function ResolveLogin(policiais: seq<Credencial>, matricula: string, senha: string, remote: RemoteOutcome): (r: LoginResult)
    ensures r.RemoteSession? <==> remote.Answered? && remote.ok && remote.accessToken != ""
    ensures r.RemoteSession? ==> r.user == remote.policial && r.token == remote.accessToken
    ensures r.LocalSession? ==> exists c :: c in policiais && c.policial == r.user && SameBadge(c, matricula)
    ensures r.LocalSession? ==> exists i :: 0 <= i < |policiais| && policiais[i].policial == r.user && FirstLocalMatch(policiais, matricula, senha, i)
    ensures r.Rejected? <==>
      !(remote.Answered? && remote.ok && remote.accessToken != "")
      && forall c :: c in policiais ==> !ExactMatch(c, matricula, senha) && !AlternateMatch(c, matricula, senha)
  {
    if remote.Answered? && remote.ok && remote.accessToken != "" then RemoteSession(remote.policial, remote.accessToken)
    else match FindIndex(policiais, c => ExactMatch(c, matricula, senha))
      case Some(i) => LocalSession(policiais[i].policial)
      case None =>
        match FindIndex(policiais, c => AlternateMatch(c, matricula, senha))
        case Some(i) => LocalSession(policiais[i].policial)
        case None => Rejected
  }

  /** Position `i` is the officer the local fallback picks: the first exact
      match, or, when no officer matches exactly, the first alternate
      match. */
  predicate FirstLocalMatch(policiais: seq<Credencial>, matricula: string, senha: string, i: nat)
    requires i < |policiais|
  {
    || (ExactMatch(policiais[i], matricula, senha) && forall j :: 0 <= j < i ==> !ExactMatch(policiais[j], matricula, senha))
    || (&& AlternateMatch(policiais[i], matricula, senha)
        && (forall c :: c in policiais ==> !ExactMatch(c, matricula, senha))
        && forall j :: 0 <= j < i ==> !AlternateMatch(policiais[j], matricula, senha))
  }

  /** At most one position is the one the local fallback picks, so the
      local session `ResolveLogin` opens is determined by the list. */
  lemma FirstLocalMatchUnique(policiais: seq<Credencial>, matricula: string, senha: string, i: nat, k: nat)
    requires i < |policiais| && k < |policiais|
    requires FirstLocalMatch(policiais, matricula, senha, i) && FirstLocalMatch(policiais, matricula, senha, k)
    ensures i == k
  {
  }

  /** `pn-session-${Date.now()}-${random}`. */
  function LocalToken(now: nat, randomPart: string): string
  {
    "pn-session-" + NatToString(now) + "-" + randomPart
  }

  /** The seeded commander logs in locally with the shared password, typed
      in any case. */
  lemma SeededCommanderLogsIn()
    ensures ResolveLogin(Seeded(), "PN001234", "pn2024", Threw) == LocalSession(Seeded()[0].policial)
    ensures ResolveLogin(Seeded(), "pn001234", "pn2024", Threw) == LocalSession(Seeded()[0].policial)
  {
    var s := Seeded();
    assert ToUpper("pn001234") == ToUpper("PN001234");
    FindFirstAt(s, c => ExactMatch(c, "PN001234", "pn2024"), 0);
    FindFirstAt(s, c => ExactMatch(c, "pn001234", "pn2024"), 0);
  }

  /** The alternate passwords open any account whose badge matches, whatever
      its stored password: here `123456` and the lower-cased badge number
      for an officer whose own password is different. */
  lemma AlternatePasswordsAccepted(p: Policial, senha: string)
    requires senha != "123456" && senha != ToLower(p.matricula)
    ensures ResolveLogin([Credencial(p, senha)], p.matricula, "123456", Threw) == LocalSession(p)
    ensures ResolveLogin([Credencial(p, senha)], p.matricula, ToLower(p.matricula), Threw) == LocalSession(p)
  {
    var c := Credencial(p, senha);
    assert AlternateMatch(c, p.matricula, "123456");
    assert AlternateMatch(c, p.matricula, ToLower(p.matricula));
  }

  /** An unknown badge number is rejected unless the server accepts it. */
  lemma UnknownBadgeRejected(policiais: seq<Credencial>, matricula: string, senha: string)
    requires forall c :: c in policiais ==> !SameBadge(c, matricula)
    ensures ResolveLogin(policiais, matricula, senha, Threw) == Rejected
    ensures ResolveLogin(policiais, matricula, senha, Answered(false, "tok", Seeded()[0].policial)) == Rejected
  {
  }

  /** A password that is neither the stored one nor an alternate one, for
      every officer with that badge, is rejected unless the server accepts
      it. */
  lemma WrongPasswordRejected(policiais: seq<Credencial>, matricula: string, senha: string)
    requires senha != "pn2024" && senha != "123456"
    requires forall c :: c in policiais && SameBadge(c, matricula) ==> c.senha != senha && senha != ToLower(c.policial.matricula)
    ensures ResolveLogin(policiais, matricula, senha, Threw) == Rejected
  {
  }

  /** The exact match takes precedence over an alternate one that comes
      earlier in the list. */
  lemma ExactBeforeAlternate(a: Credencial, b: Credencial, matricula: string)
    requires SameBadge(a, matricula) && SameBadge(b, matricula)
    requires a.senha != "123456" && b.senha == "123456" && a.policial != b.policial
    ensures ResolveLogin([a, b], matricula, "123456", Threw) == LocalSession(b.policial)
  {
    assert !ExactMatch(a, matricula, "123456");
    assert ExactMatch(b, matricula, "123456");
    FindFirstAt([a, b], c => ExactMatch(c, matricula, "123456"), 1);
  }

  /** The session state of the application. `encodeUser` and
      `encodePoliciais` are the `JSON.stringify` renderings kept in storage. */
  class AuthSession {
    var user: Option<Policial>
    var accessToken: Option<string>
    var loading: bool
    var policiais: seq<Credencial>
    var storage: map<string, string>
    const encodeUser: Policial -> string
    const encodePoliciais: seq<Credencial> -> string

    /** `user !== null && accessToken !== null`. */
    predicate IsAuthenticated()
      reads this
    {
      user.Some? && accessToken.Some?
    }

    /** The provider's initial state: no session, loading, the seeded
        officers, and whatever the browser storage holds. */
    constructor(saved: map<string, string>, encodeUser: Policial -> string, encodePoliciais: seq<Credencial> -> string)
      ensures user == None && accessToken == None && loading
      ensures policiais == Seeded() && storage == saved
      ensures this.encodeUser == encodeUser && this.encodePoliciais == encodePoliciais
      ensures !IsAuthenticated()
    {
      user := None;
      accessToken := None;
      loading := true;
      policiais := Seeded();
      storage := saved;
      this.encodeUser := encodeUser;
      this.encodePoliciais := encodePoliciais;
    }

    /** The startup effect. `parsedUser` and `parsedPoliciais` are what
        `JSON.parse` makes of the stored texts, `None` when it throws. A
        session is restored only when both the user and the token are stored;
        a user that does not parse removes both keys; an officer list that
        does not parse removes only its own key. */
    method Restore(parsedUser: Option<Policial>, parsedPoliciais: Option<seq<Credencial>>)
      modifies this
      ensures !loading
      ensures
        var haveSession := Stored(old(storage), UserKey) && Stored(old(storage), TokenKey);
        var haveList := Stored(old(storage), PoliciaisKey);
        && (haveSession && parsedUser.Some? ==> user == parsedUser && accessToken == Some(old(storage)[TokenKey]))
        && (!(haveSession && parsedUser.Some?) ==> user == old(user) && accessToken == old(accessToken))
        && (haveList && parsedPoliciais.Some? ==> policiais == parsedPoliciais.value)
        && (!(haveList && parsedPoliciais.Some?) ==> policiais == old(policiais))
        && storage == old(storage)
             - (if haveSession && parsedUser.None? then {UserKey, TokenKey} else {})
             - (if haveList && parsedPoliciais.None? then {PoliciaisKey} else {})
    {
      if Stored(storage, UserKey) && Stored(storage, TokenKey) {
        if parsedUser.Some? {
          user := parsedUser;
          accessToken := Some(storage[TokenKey]);
        } else {
          storage := storage - {UserKey, TokenKey};
        }
      }
      if Stored(storage, PoliciaisKey) {
        if parsedPoliciais.Some? {
          policiais := parsedPoliciais.value;
        } else {
          storage := storage - {PoliciaisKey};
        }
      }
      loading := false;
    }

    /** `adicionarPolicial`: appended without a duplicate check, and the whole
        list persisted. */
    method AdicionarPolicial(novo: Credencial)
      modifies this
      ensures policiais == old(policiais) + [novo]
      ensures storage == old(storage)[PoliciaisKey := encodePoliciais(policiais)]
      ensures user == old(user) && accessToken == old(accessToken) && loading == old(loading)
    {
      policiais := policiais + [novo];
      storage := storage[PoliciaisKey := encodePoliciais(policiais)];
    }

    /** `login`. `remote` is how the server request ended; `now` and
        `randomPart` make the local session token. The outcome is the one
        `ResolveLogin` picks; a rejected login leaves the session and storage
        as they were. */
    method Login(matricula: string, senha: string, remote: RemoteOutcome, now: nat, randomPart: string) returns (ok: bool)
      modifies this
      ensures !loading
      ensures policiais == old(policiais)
      ensures
        match ResolveLogin(old(policiais), matricula, senha, remote)
        case RemoteSession(p, token) =>
          && ok && user == Some(p) && accessToken == Some(token)
          && storage == old(storage)[UserKey := encodeUser(p)][TokenKey := token]
        case LocalSession(p) =>
          && ok && user == Some(p) && accessToken == Some(LocalToken(now, randomPart))
          && storage == old(storage)[UserKey := encodeUser(p)][TokenKey := LocalToken(now, randomPart)]
        case Rejected =>
          && !ok && user == old(user) && accessToken == old(accessToken) && storage == old(storage)
      ensures ok <==> IsAuthenticated() && !ResolveLogin(old(policiais), matricula, senha, remote).Rejected?
    {
      loading := true;
      if remote.Answered? && remote.ok && remote.accessToken != "" {
        user := Some(remote.policial);
        accessToken := Some(remote.accessToken);
        storage := storage[UserKey := encodeUser(remote.policial)][TokenKey := remote.accessToken];
        loading := false;
        return true;
      }
      var exact := Find(policiais, c => ExactMatch(c, matricula, senha));
      if exact.Some? {
        var token := LocalToken(now, randomPart);
        user := Some(exact.value.policial);
        accessToken := Some(token);
        storage := storage[UserKey := encodeUser(exact.value.policial)][TokenKey := token];
        loading := false;
        return true;
      }
      var alternate := Find(policiais, c => AlternateMatch(c, matricula, senha));
      if alternate.Some? {
        var token := LocalToken(now, randomPart);
        user := Some(alternate.value.policial);
        accessToken := Some(token);
        storage := storage[UserKey := encodeUser(alternate.value.policial)][TokenKey := token];
        loading := false;
        return true;
      }
      loading := false;
      return false;
    }

    /** `logout`: the session is cleared and its two keys removed; the stored
        officer list stays. */
    method Logout()
      modifies this
      ensures user == None && accessToken == None && !IsAuthenticated()
      ensures storage == old(storage) - {UserKey, TokenKey}
      ensures PoliciaisKey in old(storage) ==> PoliciaisKey in storage && storage[PoliciaisKey] == old(storage)[PoliciaisKey]
      ensures policiais == old(policiais) && loading == old(loading)
    {
      user := None;
      accessToken := None;
      storage := storage - {UserKey, TokenKey};
    }
  }

  /** `localStorage.getItem(k)` is a non-empty text. */
  predicate Stored(storage: map<string, string>, k: string)
  {
    k in storage && storage[k] != ""
  }
}
