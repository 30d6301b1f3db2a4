/** The reports screen (components/Relatorios.tsx): the daily statistics
    of the chosen period, the category sums of the pie chart, the total, the
    daily average, the most common category, the peak day and the table in
    reverse order. */
module Relatorios {
  import opened Base
  import opened Types

  /** A pie slice: a category name and its sum over the period. */
  datatype Fatia = Fatia(nome: string, valor: nat)

  /** `getDadosPeriodo`: the last `dias` days, or every day when there are
      fewer. */
  function DadosPeriodo(dados: seq<EstatisticasDiarias>, dias: nat): (r: seq<EstatisticasDiarias>)
    ensures dias > 0 ==> |r| == if dias < |dados| then dias else |dados|
    ensures |r| <= |dados| && r == dados[|dados| - |r|..]
  {
    SliceLast(dados, dias)
  }

  /** The period is a suffix of the data and ends on its last day. */
  lemma PeriodoTerminaNoUltimoDia(dados: seq<EstatisticasDiarias>, dias: nat)
    requires dias > 0 && dados != []
    ensures var r := DadosPeriodo(dados, dias); r != [] && r[|r| - 1] == dados[|dados| - 1]
  {
  }

  /** A longer period contains a shorter one at its end. */
  lemma PeriodosEncaixados(dados: seq<EstatisticasDiarias>, curto: nat, longo: nat)
    requires 0 < curto <= longo
    ensures var c := DadosPeriodo(dados, curto); var l := DadosPeriodo(dados, longo);
      |c| <= |l| && c == l[|l| - |c|..]
  {
  }

  function Roubos(ds: seq<EstatisticasDiarias>): nat { SumOf(ds, (d: EstatisticasDiarias) => d.roubo) }
  function Furtos(ds: seq<EstatisticasDiarias>): nat { SumOf(ds, (d: EstatisticasDiarias) => d.furto) }
  function Agressoes(ds: seq<EstatisticasDiarias>): nat { SumOf(ds, (d: EstatisticasDiarias) => d.agressao) }
  function Outros(ds: seq<EstatisticasDiarias>): nat { SumOf(ds, (d: EstatisticasDiarias) => d.outros) }

  /** `totalOcorrencias`: the sum of the days' totals. */
  function Total(ds: seq<EstatisticasDiarias>): nat { SumOf(ds, (d: EstatisticasDiarias) => d.total) }

  /** The pie data: the four category sums, in the order robbery, theft,
      assault, other, with the empty categories left out. */
  function DadosPizza(ds: seq<EstatisticasDiarias>): (r: seq<Fatia>)
    ensures |r| <= 4
    ensures IsSubseq(r, Categorias(ds))
    ensures forall f :: f in r <==> f in Categorias(ds) && f.valor > 0
  {
    FilterSpec(Categorias(ds), (f: Fatia) => f.valor > 0);
    Filter(Categorias(ds), (f: Fatia) => f.valor > 0)
  }

  /** The four category slices, in the order robbery, theft, assault,
      other. */
  function Categorias(ds: seq<EstatisticasDiarias>): seq<Fatia>
  {
    [Fatia("Roubo", Roubos(ds)), Fatia("Furto", Furtos(ds)), Fatia("Agressão", Agressoes(ds)), Fatia("Outros", Outros(ds))]
  }

  /** A day whose total is the sum of its four categories. */
  predicate Coerente(d: EstatisticasDiarias)
  {
    d.total == d.roubo + d.furto + d.agressao + d.outros
  }

  /** Over days whose totals are their category sums, the period total is
      the sum of the four category sums. */
  lemma {:induction false} TotalPorCategorias(ds: seq<EstatisticasDiarias>)
    requires forall d :: d in ds ==> Coerente(d)
    ensures Total(ds) == Roubos(ds) + Furtos(ds) + Agressoes(ds) + Outros(ds)
  {
    if ds != [] {
      assert Coerente(ds[0]) by { assert ds[0] in ds; }
      assert forall d :: d in ds[1..] ==> d in ds;
      TotalPorCategorias(ds[1..]);
    }
  }

  /** Leaving the empty slices out does not change what the pie adds up to:
      the slices sum to the period total. */
  lemma PizzaSomaTotal(ds: seq<EstatisticasDiarias>)
    requires forall d :: d in ds ==> Coerente(d)
    ensures SumOf(DadosPizza(ds), (f: Fatia) => f.valor) == Total(ds)
  {
    var todas := Categorias(ds);
    var valor := (f: Fatia) => f.valor;
    SumOfFilterZeros(todas, valor, (f: Fatia) => f.valor > 0);
    TotalPorCategorias(ds);
    assert SumOf(todas[3..], valor) == Outros(ds) by {
      assert todas[3..][1..] == [];
    }
    assert SumOf(todas[2..], valor) == Agressoes(ds) + Outros(ds) by {
      assert todas[2..][1..] == todas[3..];
    }
    assert SumOf(todas[1..], valor) == Furtos(ds) + Agressoes(ds) + Outros(ds) by {
      assert todas[1..][1..] == todas[2..];
    }
  }

  /** `Math.round(total / dias)`: the integer nearest the mean, halves
      rounded up; `None` for an empty period, where the division gives
      NaN. */
  function Media(ds: seq<EstatisticasDiarias>): (r: Option<nat>)
    ensures r.None? <==> ds == []
    ensures r.Some? ==> 2 * r.value * |ds| <= 2 * Total(ds) + |ds| < 2 * r.value * |ds| + 2 * |ds|
  {
    if ds == [] then None
    else
      var n := |ds|;
      var q := (2 * Total(ds) + n) / (2 * n);
      assert q * (2 * n) <= 2 * Total(ds) + n < q * (2 * n) + 2 * n;
      Some(q)
  }

  /** `xs.reduce((a, b) => key(a) > key(b) ? a : b)` over the first `n`
      elements, as a position: the running best is replaced unless it is
      strictly greater, so the last of equal maxima wins. */
  function Melhor<T>(s: seq<T>, key: T -> nat, n: nat): (i: nat)
    requires 1 <= n <= |s|
    ensures i < n
    ensures forall j :: 0 <= j < n ==> key(s[j]) <= key(s[i])
    ensures forall j :: i < j < n ==> key(s[j]) < key(s[i])
  {
    if n == 1 then 0
    else
      var i := Melhor(s, key, n - 1);
      if key(s[i]) > key(s[n - 1]) then i else n - 1
  }

  /** "Most common": the name of the largest slice, the last one among
      equals; `None` (shown as N/A) when every category is empty. */
  function MaisComum(pizza: seq<Fatia>): (r: Option<string>)
    ensures r.None? <==> pizza == []
    ensures r.Some? ==> exists i :: (0 <= i < |pizza| && pizza[i].nome == r.value
      && (forall j :: 0 <= j < |pizza| ==> pizza[j].valor <= pizza[i].valor)
      && (forall j :: i < j < |pizza| ==> pizza[j].valor < pizza[i].valor))
  {
    if pizza == [] then None
    else
      var i := Melhor(pizza, (f: Fatia) => f.valor, |pizza|);
      Some(pizza[i].nome)
  }

  /** A tie between robbery and other, both on top, is reported as other. */
  lemma EmpateFicaComOUltimo(ds: seq<EstatisticasDiarias>)
    requires Roubos(ds) > 0 && Roubos(ds) == Outros(ds)
    requires Furtos(ds) <= Roubos(ds) && Agressoes(ds) <= Roubos(ds)
    ensures MaisComum(DadosPizza(ds)) == Some("Outros")
  {
    var pizza := DadosPizza(ds);
    PizzaTerminaEmOutros(ds);
    forall j | 0 <= j < |pizza| ensures pizza[j].valor <= pizza[|pizza| - 1].valor {
      assert pizza[j] in Categorias(ds);
    }
    MelhorUltimo(pizza, (f: Fatia) => f.valor);
  }

  /** When some other report exists, its slice closes the pie. */
  lemma PizzaTerminaEmOutros(ds: seq<EstatisticasDiarias>)
    requires Outros(ds) > 0
    ensures var pizza := DadosPizza(ds); pizza != [] && pizza[|pizza| - 1] == Fatia("Outros", Outros(ds))
  {
    var todas := Categorias(ds);
    FilterAppend(todas[..3], [todas[3]], (f: Fatia) => f.valor > 0);
    assert todas == todas[..3] + [todas[3]];
    assert [todas[3]][1..] == [];
  }

  /** A last element no smaller than any other is the one the reduce
      keeps. */
  lemma MelhorUltimo<T>(s: seq<T>, key: T -> nat)
    requires s != [] && forall j :: 0 <= j < |s| ==> key(s[j]) <= key(s[|s| - 1])
    ensures Melhor(s, key, |s|) == |s| - 1
  {
  }

  /** The peak: the largest daily total, 0 for an empty period. */
  function Pico(ds: seq<EstatisticasDiarias>): (r: nat)
    ensures forall d :: d in ds ==> d.total <= r
    ensures ds == [] ==> r == 0
    ensures ds != [] ==> exists i :: 0 <= i < |ds| && ds[i].total == r
  {
    if ds == [] then 0
    else
      var i := Melhor(ds, (d: EstatisticasDiarias) => d.total, |ds|);
      ds[i].total
  }

  /** The peak never exceeds the period total. */
  lemma {:induction false} PicoAteTotal(ds: seq<EstatisticasDiarias>)
    ensures Pico(ds) <= Total(ds)
  {
    if ds != [] {
      var i :| 0 <= i < |ds| && ds[i].total == Pico(ds);
      ParcelaAteSoma(ds, ds[i]);
    }
  }

  /** One day's total is at most the sum over the days. */
  lemma {:induction false} ParcelaAteSoma(ds: seq<EstatisticasDiarias>, d: EstatisticasDiarias)
    requires d in ds
    ensures d.total <= Total(ds)
  {
    if ds[0] != d {
      ParcelaAteSoma(ds[1..], d);
    }
  }

  /** The table: the period's days, latest first, from a copy. */
  function Tabela(ds: seq<EstatisticasDiarias>): (r: seq<EstatisticasDiarias>)
    ensures |r| == |ds|
    ensures forall k :: 0 <= k < |ds| ==> r[k] == ds[|ds| - 1 - k]
  {
    ReverseLength(ds);
    forall k | 0 <= k < |ds| ensures Reverse(ds)[k] == ds[|ds| - 1 - k] {
      ReverseAt(ds, k);
    }
    Reverse(ds)
  }

  /** Reading the table backwards gives the period in order again. */
  lemma TabelaInvertida(ds: seq<EstatisticasDiarias>)
    ensures Reverse(Tabela(ds)) == ds
  {
    ReverseReverse(ds);
  }
}
