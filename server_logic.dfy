/** The pure parts of the request handlers: reading the bearer token,
    the presence checks on request bodies, the records the handlers build,
    the defensive filters that tell records from index entries, the
    statistics and search computations, and the newest-first ordering of the
    audit trail. */
module ServerLogic {
  import opened Base
  import opened Text
  import opened Json
  import opened Tally
  import opened Types
  import opened KvStore

  /** The statuses a handler answers with besides success (client errors
      in the sense of section 15.5 of RFC 9110, and the catch-all 500). */
  const BadRequest: nat := 400
  const Unauthorized: nat := 401
  const NotFound: nat := 404
  const Conflict: nat := 409
  const ServerError: nat := 500

  /** A handler's answer: its payload, or an error status. */
  datatype Reply<T> = Ok(value: T) | Fail(status: nat)

  // ---------------------------------------------------------------- tokens

  /** The index of the first space in `s`, if any. */
  function FirstSpace(s: string): (r: Option<nat>)
    ensures r.Some? ==> r.value < |s| && s[r.value] == ' ' && forall j :: 0 <= j < r.value ==> s[j] != ' '
    ensures r.None? ==> forall j :: 0 <= j < |s| ==> s[j] != ' '
  {
    if s == [] then None
    else if s[0] == ' ' then Some(0)
    else match FirstSpace(s[1..])
      case None => None
      case Some(i) => Some(i + 1)
  }

  /** `h.split(' ')[1]`: the text between the first and the second space (or
      the end), `undefined` when `h` has no space. */
  function SecondField(h: string): (r: Option<string>)
    ensures r.Some? ==> forall j :: 0 <= j < |r.value| ==> r.value[j] != ' '
  {
    match FirstSpace(h)
    case None => None
    case Some(i) =>
      var rest := h[i + 1..];
      match FirstSpace(rest)
      case None => Some(rest)
      case Some(j) => Some(rest[..j])
  }

  /** The header a client sends, `Bearer <token>`, yields its token back. */
  lemma {:induction false} SecondFieldOfBearer(token: string)
    requires forall j :: 0 <= j < |token| ==> token[j] != ' '
    ensures SecondField("Bearer " + token) == Some(token)
  {
    var h := "Bearer " + token;
    assert FirstSpace(h) == Some(6) by {
      assert h[6] == ' ';
      assert forall j :: 0 <= j < 6 ==> h[j] != ' ';
    }
    assert h[7..] == token;
  }

  /** The authentication middleware: the second field of the Authorization
      header must be a non-empty token that the identity provider (`verify`)
      maps to a user with a non-empty id. Every failure is a 401. */
  function Authenticate(header: Option<string>, verify: string -> Option<string>): (r: Reply<string>)
    ensures r.Fail? ==> r.status == Unauthorized
    ensures r.Ok? <==>
      header.Some? && SecondField(header.value).Some? && SecondField(header.value).value != ""
      && verify(SecondField(header.value).value).Some? && verify(SecondField(header.value).value).value != ""
    ensures r.Ok? ==> r == Ok(verify(SecondField(header.value).value).value)
  {
    if header.None? then Fail(Unauthorized)
    else
      var token := SecondField(header.value);
      if token.None? || token.value == "" then Fail(Unauthorized)
      else match verify(token.value)
        case None => Fail(Unauthorized)
        case Some(id) => if id == "" then Fail(Unauthorized) else Ok(id)
  }

  /** A well-formed bearer header carrying a token the provider accepts
      authenticates its user. */
  lemma BearerAccepted(token: string, verify: string -> Option<string>)
    requires token != "" && forall j :: 0 <= j < |token| ==> token[j] != ' '
    requires verify(token).Some? && verify(token).value != ""
    ensures Authenticate(Some("Bearer " + token), verify) == Ok(verify(token).value)
  {
    SecondFieldOfBearer(token);
  }

  // ------------------------------------------------------------ body checks

  /** `!!body[k]` for every listed field. */
  predicate AllPresent(body: Fields, names: seq<string>)
  {
    forall i :: 0 <= i < |names| ==> Present(Get(body, names[i]))
  }

  const SignupFields := ["email", "password", "nome", "posto", "matricula"]
  const LoginFields := ["matricula", "password"]
  const BoletimFields := ["numeroBoletim", "tipoOcorrencia", "local", "descricao"]
  const PessoaFields := ["nome", "tipo"]

  // -------------------------------------------------------------- records

  /** The officer record signup stores. */
  function NewPolicial(uid: string, body: Fields, now: nat): (r: Fields)
    requires AllPresent(body, SignupFields)
    ensures r.Keys == {"id", "nome", "posto", "matricula", "email", "criadoEm"}
    ensures r["id"] == JStr(uid) && r["criadoEm"] == JNum(now)
    ensures forall k :: k in ["nome", "posto", "matricula", "email"] ==> k in body && r[k] == body[k]
    ensures "password" !in r
  {
    assert Present(Get(body, SignupFields[0]));
    assert Present(Get(body, SignupFields[2]));
    assert Present(Get(body, SignupFields[3]));
    assert Present(Get(body, SignupFields[4]));
    map["id" := JStr(uid), "nome" := body["nome"], "posto" := body["posto"],
        "matricula" := body["matricula"], "email" := body["email"], "criadoEm" := JNum(now)]
  }

  /** The officer summary a signup answers with: id, name, rank and badge
      number, and nothing else. */
  function PublicPolicial(uid: string, body: Fields): (r: Fields)
    requires AllPresent(body, SignupFields)
    ensures r.Keys == {"id", "nome", "posto", "matricula"}
    ensures r["id"] == JStr(uid) && forall k :: k in ["nome", "posto", "matricula"] ==> k in body && r[k] == body[k]
  {
    assert Present(Get(body, SignupFields[2]));
    assert Present(Get(body, SignupFields[3]));
    assert Present(Get(body, SignupFields[4]));
    map["id" := JStr(uid), "nome" := body["nome"], "posto" := body["posto"], "matricula" := body["matricula"]]
  }

  /** The officer summary a login answers with: the stored record's id, name,
      rank and badge number, as far as it has them. */
  function LoginSnapshot(policial: Json): (r: Fields)
    ensures r.Keys <= {"id", "nome", "posto", "matricula"}
    ensures forall k :: k in {"id", "nome", "posto", "matricula"} ==> Get(r, k) == Prop(policial, k)
  {
    map k | k in {"id", "nome", "posto", "matricula"} && Prop(policial, k).Some? :: Prop(policial, k).value
  }

  /** The fields the server sets on a new report whatever the body says. */
  const ServerSetOnCreate := {"policialId", "status", "criadoEm", "atualizadoEm"}

  /** `{ id: newId, ...body, policialId, status: 'registrado', criadoEm, atualizadoEm }`. */
  function NewBoletim(body: Fields, newId: string, userId: string, now: nat): (r: Fields)
    ensures r.Keys == body.Keys + {"id"} + ServerSetOnCreate
    ensures r["policialId"] == JStr(userId) && r["status"] == JStr("registrado")
    ensures r["criadoEm"] == JNum(now) && r["atualizadoEm"] == JNum(now)
    ensures r["id"] == if "id" in body then body["id"] else JStr(newId)
    ensures forall k :: k in body && k !in ServerSetOnCreate ==> r[k] == body[k]
  {
    map["id" := JStr(newId)] + body
      + map["policialId" := JStr(userId), "status" := JStr("registrado"),
            "criadoEm" := JNum(now), "atualizadoEm" := JNum(now)]
  }

  /** `{ id: newId, ...body, criadaEm }`. */
  function NewPessoa(body: Fields, newId: string, now: nat): (r: Fields)
    ensures r.Keys == body.Keys + {"id", "criadaEm"}
    ensures r["criadaEm"] == JNum(now)
    ensures r["id"] == if "id" in body then body["id"] else JStr(newId)
    ensures forall k :: k in body && k != "criadaEm" ==> r[k] == body[k]
  {
    map["id" := JStr(newId)] + body + map["criadaEm" := JNum(now)]
  }

  /** `{ ...stored, ...upd, [stamp]: now }`: every update field wins over the
      stored one, every stored field the update does not mention is kept, and
      the timestamp field is set last. */
  function Merge(stored: Json, upd: Fields, stamp: string, now: nat): (r: Fields)
    ensures r.Keys == Spread(stored).Keys + upd.Keys + {stamp}
    ensures r[stamp] == JNum(now)
    ensures forall k :: k in upd && k != stamp ==> r[k] == upd[k]
    ensures forall k :: k in Spread(stored) && k !in upd && k != stamp ==> r[k] == Spread(stored)[k]
  {
    Spread(stored) + upd + map[stamp := JNum(now)]
  }

  // ------------------------------------------------------ defensive filters

  /** `b && typeof b === 'object' && b.id && b.numeroBoletim`: a stored report
      rather than a number-index entry. */
  predicate IsBoletimRecord(v: Json)
  {
    (v.JObj? || v.JArr?) && Present(Prop(v, "id")) && Present(Prop(v, "numeroBoletim"))
  }

  /** `p && typeof p === 'object' && p.id && p.nome`: a stored officer rather
      than a badge-index entry. */
  predicate IsPolicialRecord(v: Json)
  {
    (v.JObj? || v.JArr?) && Present(Prop(v, "id")) && Present(Prop(v, "nome"))
  }

  /** Index entries hold plain ids and are never taken for records. */
  lemma IndexEntriesFiltered(id: string)
    ensures !IsBoletimRecord(JStr(id)) && !IsPolicialRecord(JStr(id))
  {
  }

  // ------------------------------------------------------------ statistics

  /** `b.tipoOcorrencia || 'outros'`, as a property name. */
  function TipoKey(b: Json): string
  {
    if Present(Prop(b, "tipoOcorrencia")) then ToText(Prop(b, "tipoOcorrencia").value) else "outros"
  }

  /** `b.status || 'registrado'`, as a property name. */
  function StatusKey(b: Json): string
  {
    if Present(Prop(b, "status")) then ToText(Prop(b, "status").value) else "registrado"
  }

  /** The key each value yields, in order. */
  function KeysBy(vs: seq<Json>, key: Json -> string): (r: seq<string>)
    ensures |r| == |vs|
  {
    if vs == [] then [] else KeysBy(vs[..|vs| - 1], key) + [key(vs[|vs| - 1])]
  }

  /** How often a key occurs among the values' keys is how many values
      yield it. */
  lemma {:induction false} OccurrencesKeysBy(vs: seq<Json>, key: Json -> string, k: string, hit: Json -> bool)
    requires forall b :: hit(b) == (key(b) == k)
    ensures Occurrences(KeysBy(vs, key), k) == Count(vs, hit)
  {
    if vs != [] {
      var init := vs[..|vs| - 1];
      OccurrencesKeysBy(init, key, k, hit);
      assert vs == init + [vs[|vs| - 1]];
      FilterAppend(init, [vs[|vs| - 1]], hit);
    }
  }

  /** The calendar days (`new Date(d).toISOString().split('T')[0]`, given as
      `dayOf`) of the reports that carry a truthy `dataHoraOcorrencia`, in
      order; `None` when one of them is not a valid date, which makes the
      handler throw. */
  function DayKeys(vs: seq<Json>, dayOf: Json -> Option<string>): (r: Option<seq<string>>)
  {
    if vs == [] then Some([])
    else
      match DayKeys(vs[..|vs| - 1], dayOf)
      case None => None
      case Some(days) =>
        var d := Prop(vs[|vs| - 1], "dataHoraOcorrencia");
        if !Present(d) then Some(days)
        else match dayOf(d.value)
          case None => None
          case Some(day) => Some(days + [day])
  }

  /** Whether a report is dated and its date is valid. */
  predicate Dated(b: Json)
  {
    Present(Prop(b, "dataHoraOcorrencia"))
  }

  predicate BadDate(b: Json, dayOf: Json -> Option<string>)
  {
    Dated(b) && dayOf(Prop(b, "dataHoraOcorrencia").value).None?
  }

  /** Whether a report is dated on calendar day `d`. */
  predicate DatedOn(b: Json, dayOf: Json -> Option<string>, d: string)
  {
    Dated(b) && dayOf(Prop(b, "dataHoraOcorrencia").value) == Some(d)
  }

  /** Each report is counted under its own day: a day occurs in the day
      list as often as there are reports dated on it. */
  lemma {:induction false} DayKeysOccurrences(vs: seq<Json>, dayOf: Json -> Option<string>, d: string)
    ensures DayKeys(vs, dayOf).Some? ==>
      Occurrences(DayKeys(vs, dayOf).value, d) == Count(vs, b => DatedOn(b, dayOf, d))
  {
    if vs != [] && DayKeys(vs, dayOf).Some? {
      var init := vs[..|vs| - 1];
      var last := vs[|vs| - 1];
      DayKeysOccurrences(init, dayOf, d);
      assert vs == init + [last];
      FilterAppend(init, [last], b => DatedOn(b, dayOf, d));
      var days := DayKeys(init, dayOf).value;
      var r := DayKeys(vs, dayOf).value;
      if Dated(last) {
        assert r == days + [dayOf(Prop(last, "dataHoraOcorrencia").value).value];
        assert r[..|r| - 1] == days;
      } else {
        assert r == days;
      }
    }
  }

  /** The day tally fails exactly when some dated report has an invalid
      date, and otherwise holds one day per dated report. */
  lemma {:induction false} DayKeysSpec(vs: seq<Json>, dayOf: Json -> Option<string>)
    ensures DayKeys(vs, dayOf).None? <==> exists b :: b in vs && BadDate(b, dayOf)
    ensures DayKeys(vs, dayOf).Some? ==> |DayKeys(vs, dayOf).value| == Count(vs, Dated)
    ensures DayKeys(vs, dayOf).Some? ==>
      forall d :: Occurrences(DayKeys(vs, dayOf).value, d) == Count(vs, b => DatedOn(b, dayOf, d))
  {
    forall d ensures DayKeys(vs, dayOf).Some? ==>
      Occurrences(DayKeys(vs, dayOf).value, d) == Count(vs, b => DatedOn(b, dayOf, d))
    {
      DayKeysOccurrences(vs, dayOf, d);
    }
    if vs != [] {
      var init := vs[..|vs| - 1];
      var last := vs[|vs| - 1];
      DayKeysSpec(init, dayOf);
      assert vs == init + [last];
      FilterAppend(init, [last], Dated);
      if exists b :: b in init && BadDate(b, dayOf) {
        var b :| b in init && BadDate(b, dayOf);
        assert b in vs;
      }
      if b :| b in vs && BadDate(b, dayOf) {
        if b != last {
          assert b in init;
        }
      }
    }
  }

  /** The statistics of a list of valid reports: their number, the tally by
      type, by status and by day; `None` when the handler throws on a bad
      date. */
  function EstatisticasOf(valid: seq<Json>, dayOf: Json -> Option<string>): Option<Estatisticas>
  {
    match DayKeys(valid, dayOf)
    case None => None
    case Some(days) =>
      Some(Estatisticas(|valid|, TallyOf(KeysBy(valid, TipoKey)), TallyOf(KeysBy(valid, StatusKey)), TallyOf(days)))
  }

  /** What the statistics mean: the total is the number of valid reports; the
      type tally counts, for each type, the reports of that type (a report
      without one counts as `outros`); the status tally likewise (`registrado`
      when missing); both sum to the total; the day tally sums to the number
      of dated reports. */
  lemma EstatisticasSpec(valid: seq<Json>, dayOf: Json -> Option<string>)
    ensures EstatisticasOf(valid, dayOf).None? <==> exists b :: b in valid && BadDate(b, dayOf)
    ensures EstatisticasOf(valid, dayOf).Some? ==>
      var e := EstatisticasOf(valid, dayOf).value;
      && e.totalBoletins == |valid|
      && TallySum(e.porTipo) == e.totalBoletins && TallySum(e.porStatus) == e.totalBoletins
      && TallySum(e.ultimosDias) == Count(valid, Dated)
      && KeysDistinct(e.porTipo) && KeysDistinct(e.porStatus) && KeysDistinct(e.ultimosDias)
      && (forall t :: CountOf(e.porTipo, t) == Count(valid, b => TipoKey(b) == t))
      && (forall s :: CountOf(e.porStatus, s) == Count(valid, b => StatusKey(b) == s))
      && (forall d :: CountOf(e.ultimosDias, d) == Count(valid, b => DatedOn(b, dayOf, d)))
  {
    DayKeysSpec(valid, dayOf);
    TallyOfSpec(KeysBy(valid, TipoKey));
    TallyOfSpec(KeysBy(valid, StatusKey));
    if DayKeys(valid, dayOf).Some? {
      TallyOfSpec(DayKeys(valid, dayOf).value);
    }
    forall t ensures Occurrences(KeysBy(valid, TipoKey), t) == Count(valid, b => TipoKey(b) == t) {
      OccurrencesKeysBy(valid, TipoKey, t, b => TipoKey(b) == t);
    }
    forall s ensures Occurrences(KeysBy(valid, StatusKey), s) == Count(valid, b => StatusKey(b) == s) {
      OccurrencesKeysBy(valid, StatusKey, s, b => StatusKey(b) == s);
    }
  }

  /** The `forEach` loop of the statistics handler. */
  method ComputeEstatisticas(valid: seq<Json>, dayOf: Json -> Option<string>) returns (r: Option<Estatisticas>)
    ensures r == EstatisticasOf(valid, dayOf)
  {
    var porTipo: Tally := [];
    var porStatus: Tally := [];
    var ultimosDias: Tally := [];
    ghost var days: seq<string> := [];
    var i := 0;
    while i < |valid|
      invariant 0 <= i <= |valid|
      invariant porTipo == TallyOf(KeysBy(valid[..i], TipoKey))
      invariant porStatus == TallyOf(KeysBy(valid[..i], StatusKey))
      invariant DayKeys(valid[..i], dayOf) == Some(days)
      invariant ultimosDias == TallyOf(days)
    {
      var b := valid[i];
      assert valid[..i + 1][..i] == valid[..i];
      assert valid[..i + 1][i] == b;
      porTipo := Bump(porTipo, TipoKey(b));
      porStatus := Bump(porStatus, StatusKey(b));
      var d := Prop(b, "dataHoraOcorrencia");
      if Present(d) {
        var day := dayOf(d.value);
        if day.None? {
          DayKeysPrefixFails(valid, i + 1, dayOf);
          return None;
        }
        days := days + [day.value];
        ultimosDias := Bump(ultimosDias, day.value);
        assert days[..|days| - 1] + [day.value] == days;
      }
      i := i + 1;
    }
    assert valid[..i] == valid;
    r := Some(Estatisticas(|valid|, porTipo, porStatus, ultimosDias));
  }

  /** Once a prefix fails, the whole list fails. */
  lemma {:induction false} DayKeysPrefixFails(vs: seq<Json>, n: nat, dayOf: Json -> Option<string>)
    requires n <= |vs| && DayKeys(vs[..n], dayOf).None?
    ensures DayKeys(vs, dayOf).None?
    decreases |vs| - n
  {
    if n < |vs| {
      assert vs[..n + 1][..n] == vs[..n];
      DayKeysPrefixFails(vs, n + 1, dayOf);
    } else {
      assert vs[..n] == vs;
    }
  }

  // ---------------------------------------------------------------- search

  /** `b.numeroBoletim` when it is a string. */
  function NumeroText(b: Json): Option<string>
  {
    match Prop(b, "numeroBoletim")
    case Some(JStr(s)) => Some(s)
    case _ => None
  }

  /** The number filter throws (`toLowerCase` is not a function) as soon as
      it runs on a report whose number, or on a query that, is not a
      string. */
  predicate NumeroThrows(vs: seq<Json>, q: Json)
  {
    vs != [] && (!q.JStr? || exists b :: b in vs && NumeroText(b).None?)
  }

  /** Each filter's condition; a filter that is not given imposes nothing. */
  predicate NumeroPart(b: Json, filtros: Fields)
  {
    var q := Get(filtros, "numeroBoletim");
    Present(q) ==>
      q.value.JStr? && NumeroText(b).Some? && Contains(ToLower(NumeroText(b).value), ToLower(q.value.s))
  }

  predicate TipoPart(b: Json, filtros: Fields)
  {
    var q := Get(filtros, "tipoOcorrencia");
    Present(q) ==> StrictEquals(Prop(b, "tipoOcorrencia"), q.value)
  }

  predicate StatusPart(b: Json, filtros: Fields)
  {
    var q := Get(filtros, "status");
    Present(q) ==> StrictEquals(Prop(b, "status"), q.value)
  }

  predicate RangeGiven(filtros: Fields)
  {
    Present(Get(filtros, "dataInicio")) && Present(Get(filtros, "dataFim"))
  }

  /** `new Date(b.dataHoraOcorrencia)` lies between the two bounds, both
      included; `time` gives `getTime()` and `None` for an invalid date, which
      compares false with everything. */
  predicate PeriodPart(b: Json, filtros: Fields, time: Option<Json> -> Option<int>)
  {
    RangeGiven(filtros) ==>
      var t := time(Prop(b, "dataHoraOcorrencia"));
      var lo := time(Get(filtros, "dataInicio"));
      var hi := time(Get(filtros, "dataFim"));
      t.Some? && lo.Some? && hi.Some? && lo.value <= t.value <= hi.value
  }

  /** The search filters, applied one after another as the handler does. */
  function Search(valid: seq<Json>, filtros: Fields, time: Option<Json> -> Option<int>): Option<seq<Json>>
  {
    var q := Get(filtros, "numeroBoletim");
    if Present(q) && NumeroThrows(valid, q.value) then None
    else
      var byNumero := if Present(q) then Filter(valid, b => NumeroPart(b, filtros)) else valid;
      var byTipo := if Present(Get(filtros, "tipoOcorrencia")) then Filter(byNumero, b => TipoPart(b, filtros)) else byNumero;
      var byStatus := if Present(Get(filtros, "status")) then Filter(byTipo, b => StatusPart(b, filtros)) else byTipo;
      Some(if RangeGiven(filtros) then Filter(byStatus, b => PeriodPart(b, filtros, time)) else byStatus)
  }

  /** A report matches the search when it meets every filter given. */
  predicate Matches(b: Json, filtros: Fields, time: Option<Json> -> Option<int>)
  {
    NumeroPart(b, filtros) && TipoPart(b, filtros) && StatusPart(b, filtros) && PeriodPart(b, filtros, time)
  }

  /** The search throws exactly when a number filter meets a non-string;
      otherwise it keeps, in order, exactly the reports that match every
      given filter. */
  lemma SearchSpec(valid: seq<Json>, filtros: Fields, time: Option<Json> -> Option<int>)
    ensures Search(valid, filtros, time).None? <==>
      Present(Get(filtros, "numeroBoletim")) && NumeroThrows(valid, Get(filtros, "numeroBoletim").value)
    ensures Search(valid, filtros, time).Some? ==>
      && IsSubseq(Search(valid, filtros, time).value, valid)
      && forall b :: b in Search(valid, filtros, time).value <==> b in valid && Matches(b, filtros, time)
    ensures Search(valid, filtros, time).Some? ==>
      Search(valid, filtros, time).value == Filter(valid, b => Matches(b, filtros, time))
  {
    var q := Get(filtros, "numeroBoletim");
    if !(Present(q) && NumeroThrows(valid, q.value)) {
      var n := b => NumeroPart(b, filtros);
      var t := b => TipoPart(b, filtros);
      var s := b => StatusPart(b, filtros);
      var p := b => PeriodPart(b, filtros, time);
      var nt := b => NumeroPart(b, filtros) && TipoPart(b, filtros);
      var nts := b => NumeroPart(b, filtros) && TipoPart(b, filtros) && StatusPart(b, filtros);
      var all := b => Matches(b, filtros, time);
      if !Present(q) { FilterAll(valid, n); }
      var byNumero := Filter(valid, n);
      if !Present(Get(filtros, "tipoOcorrencia")) { FilterAll(byNumero, t); }
      var byTipo := Filter(byNumero, t);
      if !Present(Get(filtros, "status")) { FilterAll(byTipo, s); }
      var byStatus := Filter(byTipo, s);
      if !RangeGiven(filtros) { FilterAll(byStatus, p); }
      FilterFilter(valid, n, t, nt);
      FilterFilter(valid, nt, s, nts);
      FilterFilter(valid, nts, p, all);
      assert Search(valid, filtros, time) == Some(Filter(valid, all));
      FilterSpec(valid, all);
    }
  }

  // ------------------------------------------------------------------ logs

  /** Non-increasing timestamps: the order `logs.sort((a, b) => time(b) - time(a))` produces. */
  predicate NewestFirst(s: seq<Json>)
  {
    forall i, j :: 0 <= i < j < |s| ==> Stamp(s[i]) >= Stamp(s[j])
  }

  /** The first `n` cells of `a` are newest first. */
  ghost predicate NewestFirstUpTo(a: array<Json>, n: int)
    reads a
  {
    forall p, q :: 0 <= p < q < n && q < a.Length ==> Stamp(a[p]) >= Stamp(a[q])
  }

  /** The in-place sort of the audit entries, newest first (an insertion
      sort; the order among equal timestamps is not stated). */
  method SortNewestFirst(a: array<Json>)
    modifies a
    ensures NewestFirst(a[..])
    ensures multiset(a[..]) == multiset(old(a[..]))
  {
    var i := 0;
    while i < a.Length
      invariant 0 <= i <= a.Length
      invariant NewestFirstUpTo(a, i)
      invariant multiset(a[..]) == multiset(old(a[..]))
    {
      InsertNewest(a, i);
      i := i + 1;
    }
  }

  /** Moves `a[i]` left past every older entry, extending the sorted prefix
      by one cell. */
  method InsertNewest(a: array<Json>, i: nat)
    requires i < a.Length && NewestFirstUpTo(a, i)
    modifies a
    ensures NewestFirstUpTo(a, i + 1)
    ensures multiset(a[..]) == multiset(old(a[..]))
  {
    var j := i;
    while j > 0 && Stamp(a[j - 1]) < Stamp(a[j])
      invariant 0 <= j <= i
      invariant forall p, q :: 0 <= p < q <= i && p != j && q != j ==> Stamp(a[p]) >= Stamp(a[q])
      invariant forall q :: j < q <= i ==> Stamp(a[j]) >= Stamp(a[q])
      invariant multiset(a[..]) == multiset(old(a[..]))
    {
      Swap(a, j - 1, j);
      j := j - 1;
    }
  }

  /** Exchanges two cells, leaving the rest and the multiset of entries as
      they were. */
  method Swap(a: array<Json>, x: nat, y: nat)
    requires x < a.Length && y < a.Length
    modifies a
    ensures a[..] == old(a[..])[x := old(a[y])][y := old(a[x])]
    ensures multiset(a[..]) == multiset(old(a[..]))
  {
    a[x], a[y] := a[y], a[x];
  }

  /** The first `n` entries of a newest-first list are newest first, and no
      entry left out is newer than one kept. */
  lemma NewestPrefix(s: seq<Json>, n: nat)
    requires NewestFirst(s)
    ensures NewestFirst(Take(s, n))
    ensures forall i, j :: 0 <= i < |Take(s, n)| <= j < |s| ==> Stamp(Take(s, n)[i]) >= Stamp(s[j])
  {
  }
}
