/** The officer management screen (components/GestaoPoliciais.tsx): an
    in-memory officer list edited through a dialog form, the rank colour
    bands and the command/agent group counts. */
module GestaoPoliciais {
  import opened Base
  import opened Text
  import opened Types

  datatype PolicialForm = PolicialForm(nome: string, posto: string, matricula: string)

  const EmptyPolicialForm := PolicialForm("", "", "")

  /** The ranks of the national police, lowest first. */
  const Hierarquia := ["Agente", "Agente Principal", "Aspirante", "Subcomissário", "Comissário",
                       "Comandante", "Subintendente", "Intendente", "Superintendente"]

  /** The ranks the "Comandos" card counts. */
  const Comandos := ["Comandante", "Subintendente", "Intendente", "Superintendente"]

  /** The ranks the "Agentes" card counts. */
  const Agentes := ["Agente", "Agente Principal", "Aspirante", "Subcomissário", "Comissário"]

  datatype ErroSalvar = CamposObrigatorios | MatriculaExiste

  /** `{ ...p, ...formData }`: the form's three fields over the record. */
  function ComForm(p: Policial, f: PolicialForm): Policial
  {
    p.(nome := f.nome, posto := f.posto, matricula := f.matricula)
  }

  /** `prev.map(p => p.id === id ? { ...p, ...formData } : p)`. */
  function Editados(ps: seq<Policial>, id: string, f: PolicialForm): (r: seq<Policial>)
    ensures |r| == |ps|
    ensures forall i :: 0 <= i < |ps| ==> r[i] == if ps[i].id == id then ComForm(ps[i], f) else ps[i]
  {
    if ps == [] then [] else [if ps[0].id == id then ComForm(ps[0], f) else ps[0]] + Editados(ps[1..], id, f)
  }

  /** Editing keeps every id in place, so the set of ids is unchanged, and
      entries with another id are untouched. */
  lemma EditadosKeepIds(ps: seq<Policial>, id: string, f: PolicialForm)
    ensures forall i :: 0 <= i < |ps| ==> Editados(ps, id, f)[i].id == ps[i].id
    ensures forall i :: 0 <= i < |ps| && ps[i].id != id ==> Editados(ps, id, f)[i] == ps[i]
    ensures forall i :: 0 <= i < |ps| && ps[i].id == id ==>
      Editados(ps, id, f)[i].distrito == ps[i].distrito && Editados(ps, id, f)[i].esquadra == ps[i].esquadra
  {
  }

  /** The id a new officer gets: `String(policiais.length + 1)`. */
  function NovoId(ps: seq<Policial>): string
  {
    NatToString(|ps| + 1)
  }

  /** The id scheme does not survive deletion: after removing officer "1"
      from a list of two, the next officer gets id "2", which the remaining
      officer already has. */
  lemma NovoIdCollidesAfterDelete(a: Policial, b: Policial)
    requires a.id == "1" && b.id == "2"
    ensures NovoId(Filter([a, b], (p: Policial) => p.id != "1")) == b.id
    ensures b in Filter([a, b], (p: Policial) => p.id != "1")
  {
    assert Filter([a, b], (p: Policial) => p.id != "1") == [b] by {
      assert [a, b][1..] == [b];
    }
  }

  /** Colour bands of `getPostoColor`. */
  datatype Cor = Azul | Verde | Amarelo | Roxo

  /** `hierarchy.indexOf(posto)`, -1 when absent. */
  function IndexOfPosto(posto: string): (r: int)
    ensures r == -1 <==> posto !in Hierarquia
    ensures r != -1 ==> 0 <= r < |Hierarquia| && Hierarquia[r] == posto
  {
    match FindIndex(Hierarquia, r => r == posto)
    case None => -1
    case Some(i) => i
  }

  /** `getPostoColor`: index at most 1 (an unknown rank, -1, included) is
      blue, at most 3 green, at most 5 yellow, higher purple. */
  function PostoColor(posto: string): Cor
  {
    var index := IndexOfPosto(posto);
    if index <= 1 then Azul
    else if index <= 3 then Verde
    else if index <= 5 then Amarelo
    else Roxo
  }

  /** No rank is listed twice. */
  lemma HierarquiaDistinct()
    ensures Distinct(Hierarquia)
  {
    var h := Hierarquia;
    forall i, j | 0 <= i < j < |h| ensures h[i] != h[j] {
      assert |h[i]| != |h[j]| || h[i][0] != h[j][0] || h[i][2] != h[j][2] || h[i][|h[i]| - 1] != h[j][|h[j]| - 1];
    }
  }

  /** The bands rank by rank: the two agent ranks blue, aspirant and
      sub-commissioner green, commissioner and commander yellow, the three
      superior ranks purple. */
  lemma {:induction false} PostoColorBands(i: nat)
    requires i < |Hierarquia|
    ensures PostoColor(Hierarquia[i]) == if i <= 1 then Azul else if i <= 3 then Verde else if i <= 5 then Amarelo else Roxo
  {
    HierarquiaDistinct();
    var k := IndexOfPosto(Hierarquia[i]);
    assert k == i;
  }

  /** An unknown rank is shown like the lowest ranks. */
  lemma UnknownPostoIsAzul(posto: string)
    requires posto !in Hierarquia
    ensures PostoColor(posto) == Azul
  {
  }

  predicate EhComando(p: Policial) { p.posto in Comandos }

  predicate EhAgente(p: Policial) { p.posto in Agentes }

  /** The two groups share no rank and together are the whole hierarchy. */
  lemma GruposPartitionHierarquia()
    ensures forall r :: r in Comandos ==> r !in Agentes
    ensures forall r :: r in Hierarquia <==> r in Comandos || r in Agentes
  {
  }

  /** When every officer holds a rank of the hierarchy, the two cards add up
      to the number of officers. */
  lemma GruposSomamTotal(ps: seq<Policial>)
    requires forall p :: p in ps ==> p.posto in Hierarquia
    ensures Count(ps, EhComando) + Count(ps, EhAgente) == |ps|
  {
    GruposPartitionHierarquia();
    var either := p => EhComando(p) || EhAgente(p);
    CountDisjoint(ps, EhComando, EhAgente, either);
    FilterAll(ps, either);
  }

  /** The screen's state: the list, the record being edited, the dialog and
      its form. */
  class GestaoPoliciais {
    var policiais: seq<Policial>
    var editando: Option<Policial>
    var dialogAberto: bool
    var form: PolicialForm

    constructor(iniciais: seq<Policial>)
      ensures policiais == iniciais && editando == None && !dialogAberto && form == EmptyPolicialForm
    {
      policiais := iniciais;
      editando := None;
      dialogAberto := false;
      form := EmptyPolicialForm;
    }

    /** `resetForm`. */
    method ResetForm()
      modifies this
      ensures form == EmptyPolicialForm && editando == None
      ensures policiais == old(policiais) && dialogAberto == old(dialogAberto)
    {
      form := EmptyPolicialForm;
      editando := None;
    }

    /** `abrirDialog`: with an officer, edit it with its fields in the form;
        without, a blank form for a new officer. */
    method AbrirDialog(p: Option<Policial>)
      modifies this
      ensures dialogAberto && policiais == old(policiais) && editando == p
      ensures p.Some? ==> form == PolicialForm(p.value.nome, p.value.posto, p.value.matricula)
      ensures p.None? ==> form == EmptyPolicialForm
    {
      if p.Some? {
        editando := p;
        form := PolicialForm(p.value.nome, p.value.posto, p.value.matricula);
      } else {
        ResetForm();
      }
      dialogAberto := true;
    }

    /** `salvarPolicial`. A blank field, or (when creating) a badge number
        already in the list, is reported and changes nothing. Editing
        rewrites the entries with the edited id; creating appends one officer
        with the next id. Either way the dialog closes and the form is reset. */
    method Salvar() returns (erro: Option<ErroSalvar>)
      modifies this
      ensures old(form).nome == "" || old(form).posto == "" || old(form).matricula == "" ==>
        && erro == Some(CamposObrigatorios)
        && policiais == old(policiais) && form == old(form) && editando == old(editando) && dialogAberto == old(dialogAberto)
      ensures old(form).nome != "" && old(form).posto != "" && old(form).matricula != "" ==>
        if old(editando).None? && exists p :: p in old(policiais) && p.matricula == old(form).matricula then
          && erro == Some(MatriculaExiste)
          && policiais == old(policiais) && form == old(form) && editando == old(editando) && dialogAberto == old(dialogAberto)
        else
          && erro.None? && !dialogAberto && form == EmptyPolicialForm && editando == None
          && (old(editando).Some? ==> policiais == Editados(old(policiais), old(editando).value.id, old(form)))
          && (old(editando).None? ==>
                policiais == old(policiais) + [Policial(NovoId(old(policiais)), old(form).nome, old(form).posto, old(form).matricula, None, None)])
    {
      if form.nome == "" || form.posto == "" || form.matricula == "" {
        return Some(CamposObrigatorios);
      }
      if editando.None? && exists p :: p in policiais && p.matricula == form.matricula {
        return Some(MatriculaExiste);
      }
      if editando.Some? {
        policiais := Editados(policiais, editando.value.id, form);
      } else {
        policiais := policiais + [Policial(NovoId(policiais), form.nome, form.posto, form.matricula, None, None)];
      }
      dialogAberto := false;
      ResetForm();
      erro := None;
    }

    /** `excluirPolicial`: every entry with that id goes, the rest keep
        their order. */
    method Excluir(id: string)
      modifies this
      ensures policiais == Filter(old(policiais), (p: Policial) => p.id != id)
      ensures IsSubseq(policiais, old(policiais))
      ensures forall p :: p in policiais <==> p in old(policiais) && p.id != id
      ensures form == old(form) && editando == old(editando) && dialogAberto == old(dialogAberto)
    {
      FilterSpec(policiais, (p: Policial) => p.id != id);
      policiais := Filter(policiais, (p: Policial) => p.id != id);
    }
  }
}
