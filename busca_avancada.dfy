/** The advanced search screen (components/BuscaAvancada.tsx): the text
    search over persons by name, alias and identity number, the check on an
    uploaded photo, and the ordering and colour bands of facial matches. */
module BuscaAvancada {
  import opened Base
  import opened Text
  import opened Types
  import opened Upload
  import opened Sorting

  /** The three search boxes. */
  datatype Criterios = Criterios(termo: string, codinome: string, bi: string)

  /** The largest image accepted for recognition, 10 MiB. */
  const MaxImagemBytes := 10 * 1024 * 1024

  /** A facial match and its confidence, in percent. */
  datatype MatchFacial = MatchFacial(pessoa: Pessoa, confianca: real)

  /** Whether a person satisfies every non-empty criterion: the name and
      the alias contain the query case-insensitively, the identity number
      contains the upper-cased query. A person without an alias fails a
      non-empty alias query. */
  predicate Casa(c: Criterios, p: Pessoa)
  {
    && (c.termo == "" || Contains(ToLower(p.nome), ToLower(c.termo)))
    && (c.codinome == "" || (p.codinome.Some? && Contains(ToLower(p.codinome.value), ToLower(c.codinome))))
    && (c.bi == "" || Contains(p.bilheteIdentidade, ToUpper(c.bi)))
  }

  /** `buscarPorTexto`: `None` (the previous results stay) when every box is
      empty; otherwise the persons satisfying `Casa`, in list order. */
  function BuscarPorTexto(pessoas: seq<Pessoa>, c: Criterios): (r: Option<seq<Pessoa>>)
    ensures r.None? <==> c.termo == "" && c.codinome == "" && c.bi == ""
    ensures r.Some? ==> IsSubseq(r.value, pessoas)
    ensures r.Some? ==> forall p :: p in r.value <==> p in pessoas && Casa(c, p)
  {
    if c.termo == "" && c.codinome == "" && c.bi == "" then None
    else
      FilterSpec(pessoas, p => Casa(c, p));
      Some(Filter(pessoas, p => Casa(c, p)))
  }

  /** An empty box imposes nothing: every person satisfies the empty
      criteria. */
  lemma CriteriosVaziosCasam(p: Pessoa)
    ensures Casa(Criterios("", "", ""), p)
  {
  }

  /** Adding a criterion only narrows the search. */
  lemma {:induction false} MaisCriteriosEstreitam(c: Criterios, d: Criterios, p: Pessoa)
    requires c.termo == "" || c.termo == d.termo
    requires c.codinome == "" || c.codinome == d.codinome
    requires c.bi == "" || c.bi == d.bi
    requires Casa(d, p)
    ensures Casa(c, p)
  {
  }

  /** A person without an alias is never found by a non-empty alias query. */
  lemma SemCodinomeNuncaCasa(c: Criterios, p: Pessoa)
    requires c.codinome != "" && p.codinome.None?
    ensures !Casa(c, p)
  {
  }

  /** The case in which the name, alias and identity-number queries are
      typed makes no difference. */
  lemma CasaIgnoraCaixa(c: Criterios, p: Pessoa)
    ensures Casa(c.(termo := ToUpper(c.termo), codinome := ToUpper(c.codinome), bi := ToLower(c.bi)), p) == Casa(c, p)
  {
    ToUpperIdempotent(c.termo);
    ToUpperIdempotent(c.codinome);
    UpperOfLower(c.bi);
  }

  /** Upper-casing a lower-cased string is the same as upper-casing it. */
  lemma UpperOfLower(s: string)
    ensures ToUpper(ToLower(s)) == ToUpper(s)
  {
    assert forall i :: 0 <= i < |s| ==> UpperChar(LowerChar(s[i])) == UpperChar(s[i]);
  }

  /** Searching by a person's own name finds that person. */
  lemma {:induction false} NomeProprioEncontrado(pessoas: seq<Pessoa>, p: Pessoa)
    requires p in pessoas && p.nome != ""
    ensures var r := BuscarPorTexto(pessoas, Criterios(p.nome, "", ""));
      r.Some? && p in r.value
  {
    assert StartsWith(ToLower(p.nome), ToLower(p.nome));
  }

  /** `handleImagemUpload`: an image of at most 10 MiB. */
  function VerificarImagem(a: Arquivo): (r: Option<ErroArquivo>)
    ensures r.None? <==> StartsWith(a.tipo, "image/") && a.tamanho <= 10485760
  {
    VerificarArquivo(a, MaxImagemBytes)
  }

  /** `matches.sort((a, b) => b.confianca - a.confianca)`: the same matches,
      highest confidence first. */
  function OrdenarMatches(ms: seq<MatchFacial>): (r: seq<MatchFacial>)
    ensures SortedDesc(r, (m: MatchFacial) => m.confianca)
    ensures multiset(r) == multiset(ms)
  {
    SortDesc(ms, (m: MatchFacial) => m.confianca)
  }

  /** The confidence badge colours. */
  datatype CorConfianca = Vermelho | Amarelo | Verde

  /** `getConfiancaColor`: 85 and above green, 70 and above yellow, below
      that red. */
  function ConfiancaColor(confianca: real): (c: CorConfianca)
    ensures c == Verde <==> confianca >= 85.0
    ensures c == Vermelho <==> confianca < 70.0
  {
    if confianca >= 85.0 then Verde
    else if confianca >= 70.0 then Amarelo
    else Vermelho
  }

  /** How good a colour says the match is. */
  function Nivel(c: CorConfianca): nat
  {
    match c
    case Vermelho => 0
    case Amarelo => 1
    case Verde => 2
  }

  /** A higher confidence never gets a worse colour. */
  lemma ConfiancaColorMonotone(a: real, b: real)
    requires a <= b
    ensures Nivel(ConfiancaColor(a)) <= Nivel(ConfiancaColor(b))
  {
  }

  /** Down the sorted list of matches the badge colours never improve. */
  lemma {:induction false} CoresOrdenadas(ms: seq<MatchFacial>)
    ensures var r := OrdenarMatches(ms);
      forall i, j :: 0 <= i < j < |r| ==> Nivel(ConfiancaColor(r[i].confianca)) >= Nivel(ConfiancaColor(r[j].confianca))
  {
    var r := OrdenarMatches(ms);
    forall i, j | 0 <= i < j < |r|
      ensures Nivel(ConfiancaColor(r[i].confianca)) >= Nivel(ConfiancaColor(r[j].confianca))
    {
      ConfiancaColorMonotone(r[j].confianca, r[i].confianca);
    }
  }
}
