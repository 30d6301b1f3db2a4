/** The crime map screen (components/MapaCrimes.tsx): the filter of reports
    by district, type and period, the district colour by report count, and
    the per-district tiles of filtered reports and wanted persons. */
module MapaCrimes {
  import opened Base
  import opened Text
  import opened Types

  /** The three selectors; `todos` and `mes` mean no restriction. */
  datatype Filtros = Filtros(distrito: string, tipo: string, periodo: string)

  /** The screen's initial selection. */
  const FiltrosIniciais := Filtros("todos", "todos", "hoje")

  /** What the screen reads from the clock and the date parser. `instante`
      parses a report's date-time to milliseconds (`None` for an invalid
      date), `dia` gives the local calendar day of an instant, and `agora`,
      `ontem` and `semanaAtras` are now, the same time one calendar day
      earlier and seven calendar days earlier. */
  datatype Relogio = Relogio(
    instante: string -> Option<int>,
    dia: int -> int,
    agora: int,
    ontem: int,
    semanaAtras: int)

  /** The report happened on the calendar day of `ref`. */
  predicate MesmoDia(rel: Relogio, b: Boletim, ref: int)
  {
    var t := rel.instante(b.dataHoraOcorrencia);
    t.Some? && rel.dia(t.value) == rel.dia(ref)
  }

  /** The report happened at or after `desde`. */
  predicate Desde(rel: Relogio, b: Boletim, desde: int)
  {
    var t := rel.instante(b.dataHoraOcorrencia);
    t.Some? && t.value >= desde
  }

  predicate NoDistrito(f: Filtros, b: Boletim)
  {
    f.distrito == "todos" || b.distrito == f.distrito
  }

  predicate DoTipo(f: Filtros, b: Boletim)
  {
    f.tipo == "todos" || Contains(b.tipoOcorrencia, f.tipo)
  }

  predicate NoPeriodo(rel: Relogio, f: Filtros, b: Boletim)
  {
    if f.periodo == "hoje" then MesmoDia(rel, b, rel.agora)
    else if f.periodo == "ontem" then MesmoDia(rel, b, rel.ontem)
    else if f.periodo == "semana" then Desde(rel, b, rel.semanaAtras)
    else true
  }

  /** The report passes all three selectors. */
  predicate Mantem(rel: Relogio, f: Filtros, b: Boletim)
  {
    NoDistrito(f, b) && DoTipo(f, b) && NoPeriodo(rel, f, b)
  }

  /** The filter effect, one `filter` after another as the screen applies
      them. */
  function Filtrar(rel: Relogio, f: Filtros, bs: seq<Boletim>): seq<Boletim>
  {
    var porDistrito := Filter(bs, b => NoDistrito(f, b));
    var porTipo := Filter(porDistrito, b => DoTipo(f, b));
    Filter(porTipo, b => NoPeriodo(rel, f, b))
  }

  /** The chain keeps exactly the reports passing all three selectors, in
      their order. */
  lemma FiltrarSpec(rel: Relogio, f: Filtros, bs: seq<Boletim>)
    ensures Filtrar(rel, f, bs) == Filter(bs, b => Mantem(rel, f, b))
    ensures IsSubseq(Filtrar(rel, f, bs), bs)
    ensures forall b :: b in Filtrar(rel, f, bs) <==> b in bs && Mantem(rel, f, b)
  {
    var both := b => NoDistrito(f, b) && DoTipo(f, b);
    FilterFilter(bs, b => NoDistrito(f, b), b => DoTipo(f, b), both);
    FilterFilter(bs, both, b => NoPeriodo(rel, f, b), b => Mantem(rel, f, b));
    FilterSpec(bs, b => Mantem(rel, f, b));
  }

  /** With every selector open (`todos`, `todos`, `mes`) the whole list is
      shown. */
  lemma SemFiltros(rel: Relogio, bs: seq<Boletim>)
    ensures Filtrar(rel, Filtros("todos", "todos", "mes"), bs) == bs
  {
    var f := Filtros("todos", "todos", "mes");
    FiltrarSpec(rel, f, bs);
    FilterAll(bs, b => Mantem(rel, f, b));
  }

  /** A report whose date cannot be parsed is shown only when no period is
      chosen. */
  lemma DataInvalida(rel: Relogio, f: Filtros, b: Boletim)
    requires rel.instante(b.dataHoraOcorrencia).None?
    ensures Mantem(rel, f, b) ==> f.periodo != "hoje" && f.periodo != "ontem" && f.periodo != "semana"
  {
  }

  /** The district dot colours. */
  datatype CorDistrito = Verde | Laranja | Amarelo | Vermelho

  function Nivel(c: CorDistrito): nat
  {
    match c
    case Verde => 0
    case Laranja => 1
    case Amarelo => 2
    case Vermelho => 3
  }

  /** Reports in district `d`. */
  function CrimesNoDistrito(bs: seq<Boletim>, d: string): nat
  {
    Count(bs, (b: Boletim) => b.distrito == d)
  }

  /** `getCorDistrito`, over the whole unfiltered list: three or more
      reports red, two yellow, one orange, none green. */
  function CorDoDistrito(bs: seq<Boletim>, d: string): (c: CorDistrito)
    ensures c == Verde <==> forall b :: b in bs ==> b.distrito != d
    ensures c == Laranja <==> CrimesNoDistrito(bs, d) == 1
    ensures c == Amarelo <==> CrimesNoDistrito(bs, d) == 2
    ensures c == Vermelho <==> CrimesNoDistrito(bs, d) >= 3
  {
    var n := CrimesNoDistrito(bs, d);
    if n == 0 then
      FilterSpec(bs, (b: Boletim) => b.distrito == d);
      Verde
    else
      FilterSpec(bs, (b: Boletim) => b.distrito == d);
      assert Filter(bs, (b: Boletim) => b.distrito == d)[0] in Filter(bs, (b: Boletim) => b.distrito == d);
      if n >= 3 then Vermelho else if n >= 2 then Amarelo else Laranja
  }

  /** One more report never lowers a district's colour. */
  lemma {:induction false} CorMonotona(bs: seq<Boletim>, b: Boletim, d: string)
    ensures Nivel(CorDoDistrito(bs, d)) <= Nivel(CorDoDistrito(bs + [b], d))
  {
    FilterAppend(bs, [b], (x: Boletim) => x.distrito == d);
    assert [b][1..] == [];
  }

  /** A tile counts the filtered reports of its district, never more than
      the district has in the whole list. */
  lemma TileNaoExcede(rel: Relogio, f: Filtros, bs: seq<Boletim>, d: string)
    ensures CrimesNoDistrito(Filtrar(rel, f, bs), d) <= CrimesNoDistrito(bs, d)
  {
    FiltrarSpec(rel, f, bs);
    CountSubseq(Filtrar(rel, f, bs), bs, (b: Boletim) => b.distrito == d);
  }

  /** Choosing a district empties every other district's tile. */
  lemma {:induction false} OutrosDistritosVazios(rel: Relogio, f: Filtros, bs: seq<Boletim>, d: string)
    requires f.distrito != "todos" && d != f.distrito
    ensures CrimesNoDistrito(Filtrar(rel, f, bs), d) == 0
  {
    FiltrarSpec(rel, f, bs);
    var r := Filtrar(rel, f, bs);
    FilterNone(r, (b: Boletim) => b.distrito == d);
  }

  /** The wanted persons of a district, as its badge counts them. */
  function Procurados(pessoas: seq<Pessoa>, d: string): (r: seq<Pessoa>)
    ensures forall p :: p in r <==> p in pessoas && p.status == Some(Procurado) && p.distrito == Some(d)
    ensures IsSubseq(r, pessoas)
    ensures |r| == Count(pessoas, (p: Pessoa) => p.status == Some(Procurado) && p.distrito == Some(d))
  {
    var todos := Filter(pessoas, (p: Pessoa) => p.status == Some(Procurado));
    FilterFilter(pessoas, (p: Pessoa) => p.status == Some(Procurado), (p: Pessoa) => p.distrito == Some(d),
                 (p: Pessoa) => p.status == Some(Procurado) && p.distrito == Some(d));
    FilterSpec(pessoas, (p: Pessoa) => p.status == Some(Procurado) && p.distrito == Some(d));
    Filter(todos, (p: Pessoa) => p.distrito == Some(d))
  }
}
