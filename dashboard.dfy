/** The dashboard (components/Dashboard.tsx): loading the statistics and
    the latest reports over the demo data, the status colours, and the
    seven-day chart series. */
module Dashboard {
  import opened Base
  import opened Types
  import opened Tally
  import opened Sorting

  /** How many recent reports the dashboard lists. */
  const MaxRecentes := 5

  /** How many days the chart shows. */
  const DiasGrafico := 7

  /** The creation time of a report as a sort key; `tempo` reads a date
      string as milliseconds. */
  function ChaveCriacao(tempo: string -> int): Boletim -> real
  {
    (b: Boletim) => tempo(b.criadoEm) as real
  }

  /** The latest reports: sorted by creation time, newest first, and cut to
      five. */
  function Recentes(bs: seq<Boletim>, tempo: string -> int): (r: seq<Boletim>)
    ensures |r| == if |bs| < MaxRecentes then |bs| else MaxRecentes
  {
    Take(SortDesc(bs, ChaveCriacao(tempo)), MaxRecentes)
  }

  /** The latest reports are newest first and are reports of the list. */
  lemma RecentesSpec(bs: seq<Boletim>, tempo: string -> int)
    ensures SortedDesc(Recentes(bs, tempo), ChaveCriacao(tempo))
    ensures forall b :: b in Recentes(bs, tempo) ==> b in bs
  {
    var key := ChaveCriacao(tempo);
    var sorted := SortDesc(bs, key);
    var r := Recentes(bs, tempo);
    forall i, j | 0 <= i < j < |r| ensures key(r[i]) >= key(r[j]) {
      assert r[i] == sorted[i] && r[j] == sorted[j];
    }
    forall b | b in r ensures b in bs {
      var i :| 0 <= i < |r| && r[i] == b;
      assert sorted[i] in multiset(sorted);
    }
  }

  /** Every report left out of the latest ones is no newer than every
      report shown. */
  lemma RecentesSaoOsMaisNovos(bs: seq<Boletim>, tempo: string -> int, b: Boletim, x: Boletim)
    requires b in bs && b !in Recentes(bs, tempo) && x in Recentes(bs, tempo)
    ensures tempo(b.criadoEm) <= tempo(x.criadoEm)
  {
    var key := ChaveCriacao(tempo);
    var sorted := SortDesc(bs, key);
    var r := Recentes(bs, tempo);
    assert b in multiset(sorted);
    var k :| 0 <= k < |sorted| && sorted[k] == b;
    var i :| 0 <= i < |r| && r[i] == x;
    assert forall j :: 0 <= j < |r| ==> sorted[j] == r[j] && r[j] in r;
    assert k >= |r|;
    PrefixHoldsTop(sorted, key, |r|);
    assert key(sorted[k]) <= key(sorted[i]);
  }

  /** A chart point: a day and its count. */
  type Ponto = (string, nat)

  /** The chart sort key: a day's time, negated so that the descending sort
      puts the earliest day first. */
  function ChaveDia(tempo: string -> int): Ponto -> real
  {
    (p: Ponto) => -(tempo(p.0) as real)
  }

  /** The chart series: the per-day counts sorted by date, earliest first,
      keeping the last seven. */
  function Grafico(ultimosDias: Tally, tempo: string -> int): (r: seq<Ponto>)
    ensures |r| == if |ultimosDias| < DiasGrafico then |ultimosDias| else DiasGrafico
  {
    SliceLastSpec(SortDesc(ultimosDias, ChaveDia(tempo)), DiasGrafico);
    SliceLast(SortDesc(ultimosDias, ChaveDia(tempo)), DiasGrafico)
  }

  /** The chart runs from the earliest day to the latest and shows only
      days of the tally. */
  lemma GraficoSpec(ultimosDias: Tally, tempo: string -> int)
    ensures var r := Grafico(ultimosDias, tempo);
      forall i, j :: 0 <= i < j < |r| ==> tempo(r[i].0) <= tempo(r[j].0)
    ensures var r := Grafico(ultimosDias, tempo);
      forall p :: p in r ==> p in ultimosDias
  {
    var key := ChaveDia(tempo);
    var sorted := SortDesc(ultimosDias, key);
    var r := Grafico(ultimosDias, tempo);
    var cut := |sorted| - |r|;
    assert r == sorted[cut..];
    forall i, j | 0 <= i < j < |r| ensures tempo(r[i].0) <= tempo(r[j].0) {
      assert key(sorted[cut + i]) >= key(sorted[cut + j]);
    }
    forall p | p in r ensures p in ultimosDias {
      assert p in multiset(sorted);
    }
  }

  /** Every day left out of the chart is no later than every day shown. */
  lemma GraficoMostraOsUltimos(ultimosDias: Tally, tempo: string -> int, p: Ponto, x: Ponto)
    requires p in ultimosDias && p !in Grafico(ultimosDias, tempo) && x in Grafico(ultimosDias, tempo)
    ensures tempo(p.0) <= tempo(x.0)
  {
    var key := ChaveDia(tempo);
    var sorted := SortDesc(ultimosDias, key);
    var r := Grafico(ultimosDias, tempo);
    var cut := |sorted| - |r|;
    assert r == sorted[cut..];
    assert p in multiset(sorted);
    var k :| 0 <= k < |sorted| && sorted[k] == p;
    var i :| 0 <= i < |r| && r[i] == x;
    assert forall j :: cut <= j < |sorted| ==> sorted[j] == r[j - cut] && r[j - cut] in r;
    assert k < cut;
    assert key(sorted[k]) >= key(sorted[cut + i]);
  }

  /** The status badge colours. */
  datatype CorStatus = Azul | Amarelo | Verde | Cinza

  /** `getStatusColor`: registered blue, in progress yellow, `concluido`
      green, anything else grey. */
  function StatusColor(status: string): (c: CorStatus)
    ensures c == Azul <==> status == "registrado"
    ensures c == Amarelo <==> status == "em_andamento"
    ensures c == Verde <==> status == "concluido"
    ensures c == Cinza <==> status !in {"registrado", "em_andamento", "concluido"}
  {
    if status == "registrado" then Azul
    else if status == "em_andamento" then Amarelo
    else if status == "concluido" then Verde
    else Cinza
  }

  /** No report state is named `concluido`, so no report is ever shown
      green; resolved and archived reports are grey. */
  lemma NenhumEstadoVerde(s: StatusBoletim)
    ensures StatusColor(StatusBoletimName(s)) != Verde
    ensures s == Resolvido || s == Arquivado ==> StatusColor(StatusBoletimName(s)) == Cinza
  {
  }

  /** The statistics answer is adopted only when it carries a non-empty
      by-type tally. */
  predicate EstatisticasReais(r: ApiResponse<Estatisticas>)
  {
    r.data.Some? && |Keys(r.data.value.porTipo)| > 0
  }

  /** The reports answer is adopted only when it carries reports. */
  predicate BoletinsReais(r: ApiResponse<seq<Boletim>>)
  {
    r.data.Some? && |r.data.value| > 0
  }

  /** The dashboard's state; it starts on demo data. */
  class Dashboard {
    var estatisticas: Estatisticas
    var boletinsRecentes: seq<Boletim>
    var demoMode: bool

    constructor(demoEstatisticas: Estatisticas, demoBoletins: seq<Boletim>)
      ensures estatisticas == demoEstatisticas && boletinsRecentes == demoBoletins && demoMode
    {
      estatisticas := demoEstatisticas;
      boletinsRecentes := demoBoletins;
      demoMode := true;
    }

    /** `carregarDados`: both requests together; `respostas` is `None` when
      either threw, and then the demo data and mode stay. Each answer
      replaces its part only when it carries real data, and either one
      turns demo mode off. */
    method CarregarDados(respostas: Option<(ApiResponse<Estatisticas>, ApiResponse<seq<Boletim>>)>, tempo: string -> int)
      modifies this
      ensures respostas.None? ==>
        estatisticas == old(estatisticas) && boletinsRecentes == old(boletinsRecentes) && demoMode == old(demoMode)
      ensures respostas.Some? ==>
        var (est, bol) := respostas.value;
        && estatisticas == (if EstatisticasReais(est) then est.data.value else old(estatisticas))
        && boletinsRecentes == (if BoletinsReais(bol) then Recentes(bol.data.value, tempo) else old(boletinsRecentes))
        && demoMode == (old(demoMode) && !EstatisticasReais(est) && !BoletinsReais(bol))
    {
      if respostas.None? {
        return;
      }
      var (est, bol) := respostas.value;
      if EstatisticasReais(est) {
        estatisticas := est.data.value;
        demoMode := false;
      }
      if BoletinsReais(bol) {
        boletinsRecentes := Recentes(bol.data.value, tempo);
        demoMode := false;
      }
    }
  }
}
