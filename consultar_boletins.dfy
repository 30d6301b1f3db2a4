/** The report lookup screen (components/ConsultarBoletins.tsx): the filter
    form and its reset, loading the three lists, the search request, and the
    name lookups of the report details. */
module ConsultarBoletins {
  import opened Base
  import opened Types
  import opened Json
  import opened ServerLogic

  /** The filter form, sent to the search route as it stands. */
  datatype Filtros = Filtros(
    numeroBoletim: string,
    nomePessoa: string,
    codinome: string,
    tipoOcorrencia: string,
    dataInicio: string,
    dataFim: string)

  /** The initial filters, which `limparFiltros` restores: every box empty
      and the type selector on `todos`. */
  const FiltrosIniciais := Filtros("", "", "", "todos", "", "")

  /** The filters as the JSON object the search route receives. */
  function FiltrosJson(f: Filtros): (o: Fields)
    ensures o.Keys == {"numeroBoletim", "nomePessoa", "codinome", "tipoOcorrencia", "dataInicio", "dataFim"}
    ensures o["tipoOcorrencia"] == JStr(f.tipoOcorrencia) && o["numeroBoletim"] == JStr(f.numeroBoletim)
  {
    map["numeroBoletim" := JStr(f.numeroBoletim), "nomePessoa" := JStr(f.nomePessoa), "codinome" := JStr(f.codinome),
        "tipoOcorrencia" := JStr(f.tipoOcorrencia), "dataInicio" := JStr(f.dataInicio), "dataFim" := JStr(f.dataFim)]
  }

  /** The search route compares the type literally, and the initial filters
      carry `todos`: a search with the initial filters only returns reports
      whose type is the text `todos`, so over ordinary reports it finds
      nothing. */
  lemma BuscaComFiltrosIniciais(valid: seq<Json>, time: Option<Json> -> Option<int>)
    ensures var r := Search(valid, FiltrosJson(FiltrosIniciais), time);
      r.Some? && forall b :: b in r.value ==> Prop(b, "tipoOcorrencia") == Some(JStr("todos"))
    ensures (forall b :: b in valid ==> Prop(b, "tipoOcorrencia") != Some(JStr("todos"))) ==>
      Search(valid, FiltrosJson(FiltrosIniciais), time) == Some([])
  {
    var filtros := FiltrosJson(FiltrosIniciais);
    SearchSpec(valid, filtros, time);
    assert Get(filtros, "numeroBoletim") == Some(JStr(""));
    assert Get(filtros, "tipoOcorrencia") == Some(JStr("todos"));
    if forall b :: b in valid ==> Prop(b, "tipoOcorrencia") != Some(JStr("todos")) {
      FilterNone(valid, b => Matches(b, filtros, time));
    }
  }

  /** How a person is named in the details: the name, and the alias in
      parentheses when there is a non-empty one. */
  function RotuloPessoa(p: Pessoa): string
  {
    if p.codinome.Some? && p.codinome.value != "" then p.nome + " (" + p.codinome.value + ")" else p.nome
  }

  /** `getPessoaNome`: the label of the first person with that id, or `N/A`. */
  function PessoaNome(pessoas: seq<Pessoa>, id: string): (r: string)
    ensures (forall p :: p in pessoas ==> p.id != id) ==> r == "N/A"
    ensures (exists p :: p in pessoas && p.id == id) ==>
      exists i :: 0 <= i < |pessoas| && pessoas[i].id == id && (forall j :: 0 <= j < i ==> pessoas[j].id != id)
        && r == RotuloPessoa(pessoas[i])
  {
    match FindIndex(pessoas, (p: Pessoa) => p.id == id)
    case None => "N/A"
    case Some(i) => RotuloPessoa(pessoas[i])
  }

  /** With ids unique, every listed person is named by its own label. */
  lemma PessoaNomeComIdsUnicos(pessoas: seq<Pessoa>, k: nat)
    requires k < |pessoas|
    requires forall i, j :: 0 <= i < j < |pessoas| ==> pessoas[i].id != pessoas[j].id
    ensures PessoaNome(pessoas, pessoas[k].id) == RotuloPessoa(pessoas[k])
  {
    assert pessoas[k] in pessoas;
  }

  /** How an officer is named: rank, a space, name. */
  function RotuloPolicial(p: Policial): string
  {
    p.posto + " " + p.nome
  }

  /** `getPolicialNome`: the label of the first officer with that id, or
      `N/A`. */
  function PolicialNome(policiais: seq<Policial>, id: string): (r: string)
    ensures (forall p :: p in policiais ==> p.id != id) ==> r == "N/A"
    ensures (exists p :: p in policiais && p.id == id) ==>
      exists i :: 0 <= i < |policiais| && policiais[i].id == id && (forall j :: 0 <= j < i ==> policiais[j].id != id)
        && r == RotuloPolicial(policiais[i])
  {
    match FindIndex(policiais, (p: Policial) => p.id == id)
    case None => "N/A"
    case Some(i) => RotuloPolicial(policiais[i])
  }

  /** With ids unique, every listed officer is named by its own label. */
  lemma PolicialNomeComIdsUnicos(policiais: seq<Policial>, k: nat)
    requires k < |policiais|
    requires forall i, j :: 0 <= i < j < |policiais| ==> policiais[i].id != policiais[j].id
    ensures PolicialNome(policiais, policiais[k].id) == RotuloPolicial(policiais[k])
  {
    assert policiais[k] in policiais;
  }

  /** The three answers of the initial load. */
  datatype Respostas = Respostas(
    boletins: ApiResponse<seq<Boletim>>,
    pessoas: ApiResponse<seq<Pessoa>>,
    policiais: ApiResponse<seq<Policial>>)

  /** The screen's state. */
  class ConsultarBoletins {
    var filtros: Filtros
    var resultados: seq<Boletim>
    var pessoas: seq<Pessoa>
    var policiais: seq<Policial>

    constructor()
      ensures filtros == FiltrosIniciais && resultados == [] && pessoas == [] && policiais == []
    {
      filtros := FiltrosIniciais;
      resultados := [];
      pessoas := [];
      policiais := [];
    }

    /** `carregarDados`: `respostas` is `None` when a request threw, and
      then nothing changes; otherwise each list is replaced by its own
      answer when that answer carries data. */
    method CarregarDados(respostas: Option<Respostas>)
      modifies this
      ensures respostas.None? ==>
        resultados == old(resultados) && pessoas == old(pessoas) && policiais == old(policiais)
      ensures respostas.Some? ==>
        var rs := respostas.value;
        && resultados == (if rs.boletins.data.Some? then rs.boletins.data.value else old(resultados))
        && pessoas == (if rs.pessoas.data.Some? then rs.pessoas.data.value else old(pessoas))
        && policiais == (if rs.policiais.data.Some? then rs.policiais.data.value else old(policiais))
      ensures filtros == old(filtros)
    {
      if respostas.None? {
        return;
      }
      var rs := respostas.value;
      if rs.boletins.data.Some? {
        resultados := rs.boletins.data.value;
      }
      if rs.pessoas.data.Some? {
        pessoas := rs.pessoas.data.value;
      }
      if rs.policiais.data.Some? {
        policiais := rs.policiais.data.value;
      }
    }

    /** `buscar`: the whole filter form is sent, `todos` and the person
      fields the route ignores included; the results are replaced only by
      an answer carrying reports. */
    method Buscar(resposta: Option<ApiResponse<seq<Boletim>>>) returns (enviado: Fields)
      modifies this
      ensures enviado == FiltrosJson(filtros)
      ensures resultados == if resposta.Some? && resposta.value.data.Some? then resposta.value.data.value else old(resultados)
      ensures filtros == old(filtros) && pessoas == old(pessoas) && policiais == old(policiais)
    {
      enviado := FiltrosJson(filtros);
      if resposta.Some? && resposta.value.data.Some? {
        resultados := resposta.value.data.value;
      }
    }

    /** `limparFiltros`: the initial filters come back and the lists are
      loaded again. */
    method LimparFiltros(respostas: Option<Respostas>)
      modifies this
      ensures filtros == FiltrosIniciais
      ensures respostas.None? ==>
        resultados == old(resultados) && pessoas == old(pessoas) && policiais == old(policiais)
      ensures respostas.Some? ==>
        var rs := respostas.value;
        && resultados == (if rs.boletins.data.Some? then rs.boletins.data.value else old(resultados))
        && pessoas == (if rs.pessoas.data.Some? then rs.pessoas.data.value else old(pessoas))
        && policiais == (if rs.policiais.data.Some? then rs.policiais.data.value else old(policiais))
    {
      filtros := FiltrosIniciais;
      CarregarDados(respostas);
    }
  }
}
