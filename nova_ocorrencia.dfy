/** The new-report screen (components/NovaOcorrencia.tsx): the report form
    with its default number, the list of involved persons (never the same
    person twice), and the submit that sends the form with the involved
    persons and the officer's id. */
module NovaOcorrencia {
  import opened Base
  import opened Text
  import opened Types

  datatype OcorrenciaForm = OcorrenciaForm(
    numeroBoletim: string,
    dataHoraOcorrencia: string,
    tipoOcorrencia: string,
    local: string,
    descricao: string,
    declaranteId: string)

  /** The report sent by the submit: the form, the involved persons and the
      id of the signed-in officer (absent when nobody is signed in). */
  datatype BoletimDados = BoletimDados(form: OcorrenciaForm, envolvidos: seq<Envolvido>, policialId: Option<string>)

  /** `BO-<year>-` and the last three characters of the millisecond clock. */
  function NumeroPadrao(ano: nat, now: nat): (r: string)
    ensures |r| >= 4 && r[..3] == "BO-"
  {
    "BO-" + NatToString(ano) + "-" + LastThree(NatToString(now))
  }

  /** Clocks a second apart give the same default number in the same year,
      so two reports opened 1000 ms apart collide. */
  lemma {:induction false} NumeroPadraoRepete(ano: nat, now: nat)
    requires now >= 100
    ensures NumeroPadrao(ano, now) == NumeroPadrao(ano, now + 1000)
  {
    LastThreeDigits(now);
    LastThreeDigits(now + 1000);
    SameLowDigits(now);
  }

  /** Adding 1000 leaves the three lowest decimal digits alone. */
  lemma SameLowDigits(n: nat)
    ensures (n + 1000) % 10 == n % 10
    ensures (n + 1000) / 10 % 10 == n / 10 % 10
    ensures (n + 1000) / 100 % 10 == n / 100 % 10
  {
    assert (n + 1000) / 10 == n / 10 + 100;
    assert (n + 1000) / 100 == n / 100 + 10;
  }

  /** The form a fresh screen shows: the default number, the first sixteen
      characters of the ISO clock text (date, hours and minutes), and the
      rest empty. */
  function FormPadrao(ano: nat, now: nat, isoAgora: string): OcorrenciaForm
  {
    OcorrenciaForm(NumeroPadrao(ano, now), Take(isoAgora, 16), "", "", "", "")
  }

  /** The person ids of the involved list, in order. */
  function Ids(es: seq<Envolvido>): (r: seq<string>)
    ensures |r| == |es|
    ensures forall i :: 0 <= i < |es| ==> r[i] == es[i].pessoaId
  {
    if es == [] then [] else [es[0].pessoaId] + Ids(es[1..])
  }

  /** Filtering the involved list keeps its ids pairwise distinct. */
  lemma {:induction false} IdsFilterDistinct(es: seq<Envolvido>, p: Envolvido -> bool)
    requires Distinct(Ids(es))
    ensures Distinct(Ids(Filter(es, p)))
  {
    if es != [] {
      assert Distinct(Ids(es[1..])) by {
        assert forall i :: 0 <= i < |es| - 1 ==> Ids(es[1..])[i] == Ids(es)[i + 1];
      }
      IdsFilterDistinct(es[1..], p);
      if p(es[0]) {
        var rest := Filter(es[1..], p);
        forall e | e in rest ensures e.pessoaId != es[0].pessoaId {
          var j :| 0 <= j < |es[1..]| && es[1..][j] == e;
          assert Ids(es)[j + 1] == e.pessoaId;
        }
        var r := Filter(es, p);
        assert r == [es[0]] + rest;
        forall i, j | 0 <= i < j < |r| ensures Ids(r)[i] != Ids(r)[j] {
          if i == 0 {
            assert r[j] in rest;
          } else {
            assert Ids(r)[i] == Ids(rest)[i - 1] && Ids(r)[j] == Ids(rest)[j - 1];
          }
        }
      }
    }
  }

  /** The persons the selector offers: those not yet involved. */
  function Opcoes(pessoas: seq<Pessoa>, envolvidos: seq<Envolvido>): (r: seq<Pessoa>)
    ensures IsSubseq(r, pessoas)
    ensures forall p :: p in r <==> p in pessoas && p.id !in Ids(envolvidos)
  {
    FilterSpec(pessoas, (p: Pessoa) => p.id !in Ids(envolvidos));
    Filter(pessoas, (p: Pessoa) => p.id !in Ids(envolvidos))
  }

  /** The four fields the submit demands; the report number is not
      checked. */
  predicate Completo(f: OcorrenciaForm)
  {
    f.tipoOcorrencia != "" && f.local != "" && f.descricao != "" && f.declaranteId != ""
  }

  /** The screen's state. */
  class NovaOcorrencia {
    var form: OcorrenciaForm
    var envolvidos: seq<Envolvido>
    var pessoas: seq<Pessoa>
    var showSuccess: bool

    /** No person is involved twice. */
    ghost predicate Valid()
      reads this
    {
      Distinct(Ids(envolvidos))
    }

    constructor(ano: nat, now: nat, isoAgora: string)
      ensures Valid()
      ensures form == FormPadrao(ano, now, isoAgora) && envolvidos == [] && pessoas == [] && !showSuccess
    {
      form := FormPadrao(ano, now, isoAgora);
      envolvidos := [];
      pessoas := [];
      showSuccess := false;
    }

    /** The load effect: the persons are replaced when the answer carries
      them and kept otherwise. */
    method CarregarPessoas(resposta: ApiResponse<seq<Pessoa>>)
      modifies this
      ensures pessoas == if resposta.data.Some? then resposta.data.value else old(pessoas)
      ensures form == old(form) && envolvidos == old(envolvidos) && showSuccess == old(showSuccess)
    {
      if resposta.data.Some? {
        pessoas := resposta.data.value;
      }
    }

    /** `adicionarEnvolvido`: appends the person unless already involved. */
    method Adicionar(pessoaId: string, papel: string)
      requires Valid()
      modifies this
      ensures Valid()
      ensures envolvidos == if pessoaId in Ids(old(envolvidos)) then old(envolvidos)
                            else old(envolvidos) + [Envolvido(pessoaId, papel)]
      ensures pessoaId in Ids(envolvidos)
      ensures form == old(form) && pessoas == old(pessoas) && showSuccess == old(showSuccess)
    {
      if pessoaId !in Ids(envolvidos) {
        var novo := envolvidos + [Envolvido(pessoaId, papel)];
        assert Ids(novo) == Ids(envolvidos) + [pessoaId];
        envolvidos := novo;
      }
    }

    /** `removerEnvolvido`: drops the entry of that person, keeping the
      order of the rest. */
    method Remover(pessoaId: string)
      requires Valid()
      modifies this
      ensures Valid()
      ensures IsSubseq(envolvidos, old(envolvidos))
      ensures forall e :: e in envolvidos <==> e in old(envolvidos) && e.pessoaId != pessoaId
      ensures pessoaId !in Ids(envolvidos)
      ensures form == old(form) && pessoas == old(pessoas) && showSuccess == old(showSuccess)
    {
      FilterSpec(envolvidos, (e: Envolvido) => e.pessoaId != pessoaId);
      IdsFilterDistinct(envolvidos, (e: Envolvido) => e.pessoaId != pessoaId);
      envolvidos := Filter(envolvidos, (e: Envolvido) => e.pessoaId != pessoaId);
    }

    /** The selector: the chosen person is looked up and involved in the
      role of their person type. Choosing a person on offer always adds
      exactly one entry, for that person. */
    method Selecionar(pessoaId: string)
      requires Valid()
      modifies this
      ensures Valid()
      ensures (exists p :: p in Opcoes(pessoas, old(envolvidos)) && p.id == pessoaId) ==>
        && |envolvidos| == |old(envolvidos)| + 1
        && envolvidos[..|old(envolvidos)|] == old(envolvidos)
        && envolvidos[|old(envolvidos)|].pessoaId == pessoaId
        && exists p :: p in pessoas && p.id == pessoaId && envolvidos[|old(envolvidos)|].papel == TipoPessoaName(p.tipo)
      ensures (forall p :: p in pessoas ==> p.id != pessoaId) ==> envolvidos == old(envolvidos)
      ensures pessoaId in Ids(old(envolvidos)) ==> envolvidos == old(envolvidos)
      ensures var achada := Find(pessoas, (p: Pessoa) => p.id == pessoaId);
        achada.Some? && pessoaId !in Ids(old(envolvidos)) ==>
          envolvidos == old(envolvidos) + [Envolvido(pessoaId, TipoPessoaName(achada.value.tipo))]
      ensures form == old(form) && pessoas == old(pessoas) && showSuccess == old(showSuccess)
    {
      var achada := Find(pessoas, (p: Pessoa) => p.id == pessoaId);
      if achada.Some? {
        Adicionar(pessoaId, TipoPessoaName(achada.value.tipo));
      } else {
        assert forall p :: p in pessoas ==> p.id != pessoaId;
      }
    }

    /** `handleSubmit`. An incomplete form sends nothing and changes
      nothing. Otherwise the report goes out with the involved persons and
      the signed-in officer's id; `resposta` is the answer (`None` when the
      request threw), and an answer with data shows the success notice. */
    method Submit(user: Option<Policial>, resposta: Option<ApiResponse<()>>) returns (pedido: Option<BoletimDados>)
      modifies this
      ensures !Completo(old(form)) ==> pedido.None?
      ensures Completo(old(form)) ==>
        pedido == Some(BoletimDados(old(form), old(envolvidos), if user.Some? then Some(user.value.id) else None))
      ensures showSuccess == (old(showSuccess) || (Completo(old(form)) && resposta.Some? && resposta.value.data.Some?))
      ensures form == old(form) && envolvidos == old(envolvidos) && pessoas == old(pessoas)
    {
      if !Completo(form) {
        return None;
      }
      pedido := Some(BoletimDados(form, envolvidos, if user.Some? then Some(user.value.id) else None));
      if resposta.Some? && resposta.value.data.Some? {
        showSuccess := true;
      }
    }

    /** The timer that follows a successful submit: the notice goes away,
      the form gets a fresh default number and clock text, and no person is
      involved any more. */
    method AoFimDoAviso(ano: nat, now: nat, isoAgora: string)
      modifies this
      ensures Valid()
      ensures !showSuccess && form == FormPadrao(ano, now, isoAgora) && envolvidos == []
      ensures pessoas == old(pessoas)
    {
      showSuccess := false;
      form := FormPadrao(ano, now, isoAgora);
      envolvidos := [];
    }
  }
}
