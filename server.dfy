/** The HTTP API over the key-value store. Each route is a method of
    `Server` whose postcondition gives the whole new store: unchanged on every
    error, and on success the records written plus exactly one audit entry.
    The routes behind the authentication middleware take the user id that
    `ServerLogic.Authenticate` produced; generated ids, the clock and the
    identity provider's answers are parameters. */
module Server {
  import opened Base
  import opened Text
  import opened Json
  import opened Types
  import opened KvStore
  import opened ServerLogic

  /** `s` after `logAction` has written its entry under `log:<logId>`. */
  function Logged(s: Store, logId: string, actor: Option<Json>, acao: string, now: nat, detalhes: string): Store
  {
    s[LogPrefix + logId := LogEntry(logId, actor, acao, now, detalhes)]
  }

  /** A successful login: the provider's access token and the officer summary. */
  datatype Session = Session(accessToken: string, policial: Fields)

  /** The badge-number index key a signup body refers to. */
  function MatriculaKey(body: Fields): string
  {
    MatriculaPrefix + TextOf(Get(body, "matricula"))
  }

  /** The number-index key a report body refers to. */
  function NumeroKey(body: Fields): string
  {
    NumeroPrefix + TextOf(Get(body, "numeroBoletim"))
  }

  /** The checks of the login route before the provider is asked, in their
      order: a missing field is a 400, an unknown badge number a 404, an index
      entry pointing at no record a 404; otherwise the stored officer. */
  function LoginTarget(s: Store, body: Fields): (r: Reply<Json>)
    ensures r.Fail? ==> r.status in {BadRequest, NotFound}
    ensures r.Fail? && r.status == BadRequest <==> !AllPresent(body, LoginFields)
    ensures r.Ok? ==> exists id :: Lookup(s, MatriculaKey(body)) == Some(id) && Truthy(id)
                                  && Lookup(s, PolicialPrefix + ToText(id)) == Some(r.value) && Truthy(r.value)
    ensures AllPresent(body, LoginFields) && Present(Lookup(s, MatriculaKey(body))) ==>
      var policial := Lookup(s, PolicialPrefix + ToText(Lookup(s, MatriculaKey(body)).value));
      Present(policial) ==> r == Ok(policial.value)
  {
    if !AllPresent(body, LoginFields) then Fail(BadRequest)
    else
      var id := Lookup(s, MatriculaKey(body));
      if !Present(id) then Fail(NotFound)
      else
        var policial := Lookup(s, PolicialPrefix + ToText(id.value));
        if !Present(policial) then Fail(NotFound) else Ok(policial.value)
  }

  /** `GET /boletins` lists every value under the `boletim:` prefix, and the
      number-index entries live under that prefix too: the listing holds them
      next to the reports (the statistics and search routes filter them out,
      this route does not). */
  lemma BoletinsListingHoldsIndexEntries(s: Store, keys: seq<string>, numero: string)
    requires IsListing(s, BoletimPrefix, keys)
    requires NumeroPrefix + numero in s
    ensures s[NumeroPrefix + numero] in Values(s, keys)
  {
    assert StartsWith(NumeroPrefix + numero, BoletimPrefix) by {
      assert (NumeroPrefix + numero)[..|BoletimPrefix|] == BoletimPrefix;
    }
    ListingValues(s, BoletimPrefix, keys);
  }

  class Server {
    /** The key-value store behind the API. */
    var store: Store

    ghost predicate Valid()
      reads this
    {
      LogsWellFormed(store)
    }

    constructor(initial: Store)
      requires LogsWellFormed(initial)
      ensures store == initial && Valid()
    {
      store := initial;
    }

    /** `logAction`: one audit entry, with the request's clock reading. */
    method LogAction(actor: Option<Json>, acao: string, detalhes: string, logId: string, now: nat)
      requires Valid()
      modifies this
      ensures Valid()
      ensures store == Logged(old(store), logId, actor, acao, now, detalhes)
    {
      SetLogKeepsLogs(store, logId, LogEntry(logId, actor, acao, now, detalhes));
      store := store[LogPrefix + logId := LogEntry(logId, actor, acao, now, detalhes)];
    }

    /** `POST /auth/signup`. `createUser` is the identity provider's answer:
        the new user's id, or `None` for an error. */
    method Signup(body: Fields, createUser: Option<string>, logId: string, now: nat) returns (reply: Reply<Fields>)
      requires Valid()
      modifies this
      ensures Valid()
      ensures !AllPresent(body, SignupFields) ==> reply == Fail(BadRequest) && store == old(store)
      ensures AllPresent(body, SignupFields) && Present(Lookup(old(store), MatriculaKey(body))) ==>
        reply == Fail(Conflict) && store == old(store)
      ensures AllPresent(body, SignupFields) && !Present(Lookup(old(store), MatriculaKey(body))) && createUser.None? ==>
        reply == Fail(BadRequest) && store == old(store)
      ensures AllPresent(body, SignupFields) && !Present(Lookup(old(store), MatriculaKey(body))) && createUser.Some? ==>
        var uid := createUser.value;
        && reply == Ok(PublicPolicial(uid, body))
        && store == Logged(old(store)[PolicialPrefix + uid := JObj(NewPolicial(uid, body, now))][MatriculaKey(body) := JStr(uid)],
                           logId, Some(JStr(uid)), "POLICIAL_CRIADO", now,
                           "Novo policial: " + TextOf(Get(body, "nome")) + " - " + TextOf(Get(body, "posto"))
                           + " - " + TextOf(Get(body, "matricula")))
    {
      if !AllPresent(body, SignupFields) {
        return Fail(BadRequest);
      }
      if Present(Lookup(store, MatriculaKey(body))) {
        return Fail(Conflict);
      }
      if createUser.None? {
        return Fail(BadRequest);
      }
      var uid := createUser.value;
      var policial := NewPolicial(uid, body, now);
      SetRecordKeepsLogs(store, PolicialPrefix, uid, JObj(policial));
      store := store[PolicialPrefix + uid := JObj(policial)];
      SetRecordKeepsLogs(store, MatriculaPrefix, TextOf(Get(body, "matricula")), JStr(uid));
      store := store[MatriculaKey(body) := JStr(uid)];
      LogAction(Some(JStr(uid)), "POLICIAL_CRIADO",
        "Novo policial: " + TextOf(Get(body, "nome")) + " - " + TextOf(Get(body, "posto"))
        + " - " + TextOf(Get(body, "matricula")), logId, now);
      reply := Ok(PublicPolicial(uid, body));
    }

    /** `POST /auth/login`. `signIn` is the identity provider's answer for
        the stored e-mail and the given password: an access token, or `None`
        when it rejects them. */
    method Login(body: Fields, signIn: (Option<Json>, Option<Json>) -> Option<string>, logId: string, now: nat)
      returns (reply: Reply<Session>)
      requires Valid()
      modifies this
      ensures Valid()
      ensures LoginTarget(old(store), body).Fail? ==>
        reply == Fail(LoginTarget(old(store), body).status) && store == old(store)
      ensures LoginTarget(old(store), body).Ok? ==>
        var policial := LoginTarget(old(store), body).value;
        var token := signIn(Prop(policial, "email"), Get(body, "password"));
        && (token.None? ==> reply == Fail(Unauthorized) && store == old(store))
        && (token.Some? ==>
              && reply == Ok(Session(token.value, LoginSnapshot(policial)))
              && store == Logged(old(store), logId, Prop(policial, "id"), "LOGIN", now,
                                 "Login realizado: " + TextOf(Prop(policial, "nome"))))
    {
      var target := LoginTarget(store, body);
      if target.Fail? {
        return Fail(target.status);
      }
      var policial := target.value;
      var token := signIn(Prop(policial, "email"), Get(body, "password"));
      if token.None? {
        return Fail(Unauthorized);
      }
      LogAction(Prop(policial, "id"), "LOGIN", "Login realizado: " + TextOf(Prop(policial, "nome")), logId, now);
      reply := Ok(Session(token.value, LoginSnapshot(policial)));
    }

    /** `GET /boletins`: every value under `boletim:`, number-index entries
        included. */
    method ListBoletins(userId: string, keys: seq<string>, logId: string, now: nat) returns (reply: Reply<seq<Json>>)
      requires Valid() && IsListing(store, BoletimPrefix, keys)
      modifies this
      ensures Valid()
      ensures reply == Ok(Values(old(store), keys))
      ensures store == Logged(old(store), logId, Some(JStr(userId)), "CONSULTA_BOLETINS", now, "Listagem de boletins")
    {
      var boletins := Values(store, keys);
      LogAction(Some(JStr(userId)), "CONSULTA_BOLETINS", "Listagem de boletins", logId, now);
      reply := Ok(boletins);
    }

    /** `POST /boletins`. */
    method CreateBoletim(userId: string, body: Fields, newId: string, logId: string, now: nat) returns (reply: Reply<Json>)
      requires Valid()
      modifies this
      ensures Valid()
      ensures !AllPresent(body, BoletimFields) ==> reply == Fail(BadRequest) && store == old(store)
      ensures AllPresent(body, BoletimFields) && Present(Lookup(old(store), NumeroKey(body))) ==>
        reply == Fail(Conflict) && store == old(store)
      ensures AllPresent(body, BoletimFields) && !Present(Lookup(old(store), NumeroKey(body))) ==>
        var boletim := NewBoletim(body, newId, userId, now);
        && reply == Ok(JObj(boletim))
        && store == Logged(old(store)[BoletimPrefix + ToText(boletim["id"]) := JObj(boletim)]
                                     [NumeroPrefix + TextOf(Get(boletim, "numeroBoletim")) := boletim["id"]],
                           logId, Some(JStr(userId)), "BOLETIM_CRIADO", now,
                           "B.O. " + TextOf(Get(boletim, "numeroBoletim")) + " - " + TextOf(Get(boletim, "tipoOcorrencia")))
    {
      if !AllPresent(body, BoletimFields) {
        return Fail(BadRequest);
      }
      if Present(Lookup(store, NumeroKey(body))) {
        return Fail(Conflict);
      }
      var boletim := NewBoletim(body, newId, userId, now);
      SetRecordKeepsLogs(store, BoletimPrefix, ToText(boletim["id"]), JObj(boletim));
      store := store[BoletimPrefix + ToText(boletim["id"]) := JObj(boletim)];
      SetRecordKeepsLogs(store, NumeroPrefix, TextOf(Get(boletim, "numeroBoletim")), boletim["id"]);
      store := store[NumeroPrefix + TextOf(Get(boletim, "numeroBoletim")) := boletim["id"]];
      LogAction(Some(JStr(userId)), "BOLETIM_CRIADO",
        "B.O. " + TextOf(Get(boletim, "numeroBoletim")) + " - " + TextOf(Get(boletim, "tipoOcorrencia")), logId, now);
      reply := Ok(JObj(boletim));
    }

    /** `GET /boletins/:id`. */
    method GetBoletim(userId: string, id: string, logId: string, now: nat) returns (reply: Reply<Json>)
      requires Valid()
      modifies this
      ensures Valid()
      ensures !Present(Lookup(old(store), BoletimPrefix + id)) ==> reply == Fail(NotFound) && store == old(store)
      ensures Present(Lookup(old(store), BoletimPrefix + id)) ==>
        var boletim := old(store)[BoletimPrefix + id];
        && reply == Ok(boletim)
        && store == Logged(old(store), logId, Some(JStr(userId)), "CONSULTA_BOLETIM", now,
                           "B.O. " + TextOf(Prop(boletim, "numeroBoletim")))
    {
      var found := Lookup(store, BoletimPrefix + id);
      if !Present(found) {
        return Fail(NotFound);
      }
      var boletim := found.value;
      LogAction(Some(JStr(userId)), "CONSULTA_BOLETIM", "B.O. " + TextOf(Prop(boletim, "numeroBoletim")), logId, now);
      reply := Ok(boletim);
    }

    /** `PUT /boletins/:id`: only the report's own key is rewritten; the
        number index is left as it was, even when the number changes. */
    method UpdateBoletim(userId: string, id: string, upd: Fields, logId: string, now: nat) returns (reply: Reply<Json>)
      requires Valid()
      modifies this
      ensures Valid()
      ensures !Present(Lookup(old(store), BoletimPrefix + id)) ==> reply == Fail(NotFound) && store == old(store)
      ensures Present(Lookup(old(store), BoletimPrefix + id)) ==>
        var boletim := old(store)[BoletimPrefix + id];
        var merged := Merge(boletim, upd, "atualizadoEm", now);
        && reply == Ok(JObj(merged))
        && store == Logged(old(store)[BoletimPrefix + id := JObj(merged)], logId, Some(JStr(userId)),
                           "BOLETIM_ATUALIZADO", now, "B.O. " + TextOf(Prop(boletim, "numeroBoletim")) + " atualizado")
    {
      var found := Lookup(store, BoletimPrefix + id);
      if !Present(found) {
        return Fail(NotFound);
      }
      var boletim := found.value;
      var merged := Merge(boletim, upd, "atualizadoEm", now);
      SetRecordKeepsLogs(store, BoletimPrefix, id, JObj(merged));
      store := store[BoletimPrefix + id := JObj(merged)];
      LogAction(Some(JStr(userId)), "BOLETIM_ATUALIZADO",
        "B.O. " + TextOf(Prop(boletim, "numeroBoletim")) + " atualizado", logId, now);
      reply := Ok(JObj(merged));
    }

    /** `GET /pessoas`: every value under `pessoa:`. */
    method ListPessoas(userId: string, keys: seq<string>, logId: string, now: nat) returns (reply: Reply<seq<Json>>)
      requires Valid() && IsListing(store, PessoaPrefix, keys)
      modifies this
      ensures Valid()
      ensures reply == Ok(Values(old(store), keys))
      ensures store == Logged(old(store), logId, Some(JStr(userId)), "CONSULTA_PESSOAS", now, "Listagem de pessoas")
    {
      var pessoas := Values(store, keys);
      LogAction(Some(JStr(userId)), "CONSULTA_PESSOAS", "Listagem de pessoas", logId, now);
      reply := Ok(pessoas);
    }

    /** `POST /pessoas`. */
    method CreatePessoa(userId: string, body: Fields, newId: string, logId: string, now: nat) returns (reply: Reply<Json>)
      requires Valid()
      modifies this
      ensures Valid()
      ensures !AllPresent(body, PessoaFields) ==> reply == Fail(BadRequest) && store == old(store)
      ensures AllPresent(body, PessoaFields) ==>
        var pessoa := NewPessoa(body, newId, now);
        && reply == Ok(JObj(pessoa))
        && store == Logged(old(store)[PessoaPrefix + ToText(pessoa["id"]) := JObj(pessoa)], logId, Some(JStr(userId)),
                           "PESSOA_CRIADA", now, TextOf(Get(pessoa, "nome")) + " - " + TextOf(Get(pessoa, "tipo")))
    {
      if !AllPresent(body, PessoaFields) {
        return Fail(BadRequest);
      }
      var pessoa := NewPessoa(body, newId, now);
      SetRecordKeepsLogs(store, PessoaPrefix, ToText(pessoa["id"]), JObj(pessoa));
      store := store[PessoaPrefix + ToText(pessoa["id"]) := JObj(pessoa)];
      LogAction(Some(JStr(userId)), "PESSOA_CRIADA", TextOf(Get(pessoa, "nome")) + " - " + TextOf(Get(pessoa, "tipo")), logId, now);
      reply := Ok(JObj(pessoa));
    }

    /** `PUT /pessoas/:id`. */
    method UpdatePessoa(userId: string, id: string, upd: Fields, logId: string, now: nat) returns (reply: Reply<Json>)
      requires Valid()
      modifies this
      ensures Valid()
      ensures !Present(Lookup(old(store), PessoaPrefix + id)) ==> reply == Fail(NotFound) && store == old(store)
      ensures Present(Lookup(old(store), PessoaPrefix + id)) ==>
        var pessoa := old(store)[PessoaPrefix + id];
        var merged := Merge(pessoa, upd, "atualizadaEm", now);
        && reply == Ok(JObj(merged))
        && store == Logged(old(store)[PessoaPrefix + id := JObj(merged)], logId, Some(JStr(userId)),
                           "PESSOA_ATUALIZADA", now, TextOf(Prop(pessoa, "nome")) + " atualizado")
    {
      var found := Lookup(store, PessoaPrefix + id);
      if !Present(found) {
        return Fail(NotFound);
      }
      var pessoa := found.value;
      var merged := Merge(pessoa, upd, "atualizadaEm", now);
      SetRecordKeepsLogs(store, PessoaPrefix, id, JObj(merged));
      store := store[PessoaPrefix + id := JObj(merged)];
      LogAction(Some(JStr(userId)), "PESSOA_ATUALIZADA", TextOf(Prop(pessoa, "nome")) + " atualizado", logId, now);
      reply := Ok(JObj(merged));
    }

    /** `DELETE /pessoas/:id`: exactly the person's key is removed. */
    method DeletePessoa(userId: string, id: string, logId: string, now: nat) returns (reply: Reply<()>)
      requires Valid()
      modifies this
      ensures Valid()
      ensures !Present(Lookup(old(store), PessoaPrefix + id)) ==> reply == Fail(NotFound) && store == old(store)
      ensures Present(Lookup(old(store), PessoaPrefix + id)) ==>
        && reply == Ok(())
        && store == Logged(old(store) - {PessoaPrefix + id}, logId, Some(JStr(userId)), "PESSOA_DELETADA", now,
                           TextOf(Prop(old(store)[PessoaPrefix + id], "nome")) + " removido do sistema")
    {
      var found := Lookup(store, PessoaPrefix + id);
      if !Present(found) {
        return Fail(NotFound);
      }
      var pessoa := found.value;
      store := store - {PessoaPrefix + id};
      LogAction(Some(JStr(userId)), "PESSOA_DELETADA", TextOf(Prop(pessoa, "nome")) + " removido do sistema", logId, now);
      reply := Ok(());
    }

    /** `GET /policiais`: the officer records under `policial:`, badge-index
        entries filtered out. */
    method ListPoliciais(userId: string, keys: seq<string>, logId: string, now: nat) returns (reply: Reply<seq<Json>>)
      requires Valid() && IsListing(store, PolicialPrefix, keys)
      modifies this
      ensures Valid()
      ensures reply == Ok(Filter(Values(old(store), keys), IsPolicialRecord))
      ensures store == Logged(old(store), logId, Some(JStr(userId)), "CONSULTA_POLICIAIS", now, "Listagem de policiais")
    {
      var policiais := Filter(Values(store, keys), IsPolicialRecord);
      LogAction(Some(JStr(userId)), "CONSULTA_POLICIAIS", "Listagem de policiais", logId, now);
      reply := Ok(policiais);
    }

    /** `GET /relatorios/estatisticas`. `dayOf` renders a date as its
        calendar day, `None` for an invalid date (the handler then throws and
        answers 500 without logging). */
    method Estatisticas(userId: string, keys: seq<string>, dayOf: Json -> Option<string>, logId: string, now: nat)
      returns (reply: Reply<Estatisticas>)
      requires Valid() && IsListing(store, BoletimPrefix, keys)
      modifies this
      ensures Valid()
      ensures
        var stats := EstatisticasOf(Filter(Values(old(store), keys), IsBoletimRecord), dayOf);
        && (stats.None? ==> reply == Fail(ServerError) && store == old(store))
        && (stats.Some? ==>
              && reply == Ok(stats.value)
              && store == Logged(old(store), logId, Some(JStr(userId)), "CONSULTA_ESTATISTICAS", now,
                                 "Relatório de estatísticas gerado"))
    {
      var valid := Filter(Values(store, keys), IsBoletimRecord);
      var stats := ComputeEstatisticas(valid, dayOf);
      if stats.None? {
        return Fail(ServerError);
      }
      LogAction(Some(JStr(userId)), "CONSULTA_ESTATISTICAS", "Relatório de estatísticas gerado", logId, now);
      reply := Ok(stats.value);
    }

    /** `POST /boletins/buscar`. `time` is `new Date(x).getTime()` (`None` for
        an invalid date); `filtrosText` is `JSON.stringify(filtros)`. The
        answer carries the matching reports and their number. */
    method Buscar(userId: string, filtros: Fields, keys: seq<string>, time: Option<Json> -> Option<int>,
                  filtrosText: string, logId: string, now: nat)
      returns (reply: Reply<(seq<Json>, nat)>)
      requires Valid() && IsListing(store, BoletimPrefix, keys)
      modifies this
      ensures Valid()
      ensures
        var found := Search(Filter(Values(old(store), keys), IsBoletimRecord), filtros, time);
        && (found.None? ==> reply == Fail(ServerError) && store == old(store))
        && (found.Some? ==>
              && reply == Ok((found.value, |found.value|))
              && store == Logged(old(store), logId, Some(JStr(userId)), "BUSCA_AVANCADA", now,
                                 "Busca com filtros: " + filtrosText))
    {
      var valid := Filter(Values(store, keys), IsBoletimRecord);
      var found := Search(valid, filtros, time);
      if found.None? {
        return Fail(ServerError);
      }
      LogAction(Some(JStr(userId)), "BUSCA_AVANCADA", "Busca com filtros: " + filtrosText, logId, now);
      reply := Ok((found.value, |found.value|));
    }

    /** `GET /logs`: the audit entries stored before this request, newest
        first, at most 100. `ordered` is the whole sorted listing. */
    method GetLogs(userId: string, keys: seq<string>, logId: string, now: nat)
      returns (reply: Reply<seq<Json>>, ghost ordered: seq<Json>)
      requires Valid() && IsListing(store, LogPrefix, keys)
      modifies this
      ensures Valid()
      ensures multiset(ordered) == multiset(Values(old(store), keys)) && NewestFirst(ordered)
      ensures reply == Ok(Take(ordered, 100))
      ensures forall e :: e in reply.value ==> IsLogEntry(e)
      ensures store == Logged(old(store), logId, Some(JStr(userId)), "CONSULTA_LOGS", now, "Consulta de logs de auditoria")
    {
      var logs := Values(store, keys);
      var a := new Json[|logs|](i requires 0 <= i < |logs| => logs[i]);
      assert a[..] == logs;
      SortNewestFirst(a);
      ordered := a[..];
      forall e | e in ordered ensures IsLogEntry(e) {
        assert e in multiset(logs);
        var i :| 0 <= i < |logs| && logs[i] == e;
        assert keys[i] in keys;
      }
      LogAction(Some(JStr(userId)), "CONSULTA_LOGS", "Consulta de logs de auditoria", logId, now);
      reply := Ok(Take(a[..], 100));
    }
  }
}
