/** The person management screen (components/GestaoPessoas.tsx): a person
    form with a presence check and the identity-card pattern, a photo
    picker with type and size limits, and the list of persons kept in step
    with the server's answers to create, update and delete requests. */
module GestaoPessoas {
  import opened Base
  import opened Text
  import opened Types
  import opened Upload

  /** The form: every field a string, the person type chosen from a list. */
  datatype PessoaForm = PessoaForm(
    nome: string,
    codinome: string,
    tipo: TipoPessoa,
    bilheteIdentidade: string,
    telefone: string,
    endereco: string,
    dataNascimento: string,
    foto: string)

  /** The form as `resetForm` leaves it: a declarant with every field empty. */
  const EmptyPessoaForm := PessoaForm("", "", Declarante, "", "", "", "", "")

  /** The identity-card input accepts at most this many characters. */
  const MaxLengthBI := 14

  /** The largest photo accepted, 5 MiB. */
  const MaxFotoBytes := 5 * 1024 * 1024

  datatype ErroPessoa = CamposObrigatorios | FormatoBI

  /** The person record sent to the server: the form with an empty alias
      left out and the photo address chosen at save time. */
  datatype DadosPessoa = DadosPessoa(
    nome: string,
    codinome: Option<string>,
    tipo: TipoPessoa,
    bilheteIdentidade: string,
    telefone: string,
    endereco: string,
    dataNascimento: string,
    foto: string)

  /** The requests the screen sends. */
  datatype Pedido = Put(id: string, dados: DadosPessoa) | Post(dados: DadosPessoa) | Del(id: string)

  /** `/^\d{9}[A-Z]{2}\d{3}$/`: nine digits, two capital letters, three
      digits, as in 005485692LA042. */
  predicate BiValido(bi: string)
  {
    && |bi| == 14
    && (forall i :: 0 <= i < 9 ==> IsDigit(bi[i]))
    && IsUpperLetter(bi[9]) && IsUpperLetter(bi[10])
    && (forall i :: 11 <= i < 14 ==> IsDigit(bi[i]))
  }

  /** The first check of `salvarPessoa` the form fails: a missing name or
      identity number, then the identity-number pattern. (The type always
      holds one of the four choices, so its presence check never fails.) */
  function ValidarPessoa(f: PessoaForm): (r: Option<ErroPessoa>)
    ensures r.None? <==> f.nome != "" && BiValido(f.bilheteIdentidade)
    ensures r == Some(CamposObrigatorios) <==> f.nome == "" || f.bilheteIdentidade == ""
  {
    if f.nome == "" || f.bilheteIdentidade == "" then Some(CamposObrigatorios)
    else if !BiValido(f.bilheteIdentidade) then Some(FormatoBI)
    else None
  }

  /** A well-formed identity number fills the input exactly. */
  lemma BiValidoFitsInput(bi: string)
    requires BiValido(bi)
    ensures |bi| == MaxLengthBI
  {
  }

  /** The input upper-cases what is typed; a well-formed identity number is
      left as it is by that. */
  lemma BiValidoUpperCase(bi: string)
    requires BiValido(bi)
    ensures ToUpper(bi) == bi
  {
    assert forall i :: 0 <= i < |bi| ==> UpperChar(bi[i]) == bi[i];
  }

  /** The sample number of the error message is well formed. */
  lemma BiExemplo()
    ensures BiValido("005485692LA042")
    ensures !BiValido("005485692la042")
  {
  }

  /** `handleFotoChange`: the file must be an image of at most 5 MiB. */
  function VerificarFoto(a: Arquivo): (r: Option<ErroArquivo>)
    ensures r.None? <==> StartsWith(a.tipo, "image/") && a.tamanho <= 5242880
  {
    VerificarArquivo(a, MaxFotoBytes)
  }

  /** The limit is inclusive: an image of exactly 5 MiB is accepted, one
      byte more is not. */
  lemma FotoLimiteInclusivo(nome: string, tipo: string)
    requires StartsWith(tipo, "image/")
    ensures VerificarFoto(Arquivo(nome, tipo, 5242880)).None?
    ensures VerificarFoto(Arquivo(nome, tipo, 5242881)) == Some(ArquivoGrande)
  {
  }

  /** `pessoa.campo || ''`. */
  function OrEmpty(x: Option<string>): string
  {
    if x.Some? then x.value else ""
  }

  /** The form `abrirDialog` fills in for a person. */
  function FormDe(p: Pessoa): PessoaForm
  {
    PessoaForm(p.nome, OrEmpty(p.codinome), p.tipo, p.bilheteIdentidade,
               OrEmpty(p.telefone), OrEmpty(p.endereco), OrEmpty(p.dataNascimento), OrEmpty(p.foto))
  }

  /** The photo address sent: the form's when no new file was chosen,
      otherwise `/fotos/pessoa_<now>_<file name>`. */
  function UrlFoto(f: PessoaForm, selecionada: Option<Arquivo>, now: nat): (r: string)
    ensures selecionada.None? ==> r == f.foto
    ensures selecionada.Some? ==> StartsWith(r, "/fotos/pessoa_")
  {
    match selecionada
    case None => f.foto
    case Some(a) => "/fotos/pessoa_" + NatToString(now) + "_" + a.nome
  }

  /** `{ ...formData, codinome: formData.codinome || undefined, foto }`. */
  function Dados(f: PessoaForm, foto: string): (d: DadosPessoa)
    ensures d.codinome.None? <==> f.codinome == ""
    ensures d.codinome.Some? ==> d.codinome.value == f.codinome
    ensures d.nome == f.nome && d.tipo == f.tipo && d.bilheteIdentidade == f.bilheteIdentidade && d.foto == foto
  {
    DadosPessoa(f.nome, if f.codinome == "" then None else Some(f.codinome), f.tipo, f.bilheteIdentidade,
                f.telefone, f.endereco, f.dataNascimento, foto)
  }

  /** Opening a person and saving without changes sends back the alias and
      photo the person had, unless the alias was stored as an empty string,
      and the same name, type and identity number. */
  lemma DadosDeFormDe(p: Pessoa)
    requires p.codinome != Some("")
    ensures Dados(FormDe(p), OrEmpty(p.foto)).codinome == p.codinome
    ensures var d := Dados(FormDe(p), OrEmpty(p.foto));
      d.nome == p.nome && d.tipo == p.tipo && d.bilheteIdentidade == p.bilheteIdentidade
  {
  }

  /** `prev.map(p => p.id === id ? novo : p)`. */
  function Substituidos(ps: seq<Pessoa>, id: string, novo: Pessoa): (r: seq<Pessoa>)
    ensures |r| == |ps|
    ensures forall i :: 0 <= i < |ps| ==> r[i] == if ps[i].id == id then novo else ps[i]
  {
    if ps == [] then [] else [if ps[0].id == id then novo else ps[0]] + Substituidos(ps[1..], id, novo)
  }

  /** Replacing by a record with the same id keeps the list's ids, and
      every entry that had another id. */
  lemma SubstituidosKeepIds(ps: seq<Pessoa>, id: string, novo: Pessoa)
    requires novo.id == id
    ensures forall i :: 0 <= i < |ps| ==> Substituidos(ps, id, novo)[i].id == ps[i].id
    ensures forall p :: p in ps && p.id != id ==> p in Substituidos(ps, id, novo)
    ensures forall p :: p in Substituidos(ps, id, novo) ==> p == novo || p in ps
  {
    var r := Substituidos(ps, id, novo);
    forall p | p in ps && p.id != id ensures p in r {
      var i :| 0 <= i < |ps| && ps[i] == p;
      assert r[i] == p;
    }
  }

  /** The list after a save request: nothing changes when the request threw
      or the answer carries no person; otherwise the edited id is replaced
      by the answer, or the answer is appended to the list. */
  function AposSalvar(ps: seq<Pessoa>, editando: Option<Pessoa>, resposta: Option<ApiResponse<Pessoa>>): (r: seq<Pessoa>)
    ensures resposta.None? || resposta.value.data.None? ==> r == ps
    ensures resposta.Some? && resposta.value.data.Some? && editando.None? ==> r == ps + [resposta.value.data.value]
    ensures resposta.Some? && resposta.value.data.Some? && editando.Some? ==>
      && |r| == |ps|
      && (forall i :: 0 <= i < |ps| && ps[i].id != editando.value.id ==> r[i] == ps[i])
      && (forall i :: 0 <= i < |ps| && ps[i].id == editando.value.id ==> r[i] == resposta.value.data.value)
  {
    if resposta.None? || resposta.value.data.None? then ps
    else if editando.Some? then Substituidos(ps, editando.value.id, resposta.value.data.value)
    else ps + [resposta.value.data.value]
  }

  /** The list after a delete request: entries with that id go when the
      answer has data or no error; otherwise, or when the request threw,
      nothing changes. */
  function AposExcluir(ps: seq<Pessoa>, id: string, resposta: Option<ApiResponse<()>>): (r: seq<Pessoa>)
    ensures resposta.None? || (resposta.value.data.None? && resposta.value.error.Some?) ==> r == ps
    ensures resposta.Some? && (resposta.value.data.Some? || resposta.value.error.None?) ==>
      forall p :: p in r <==> p in ps && p.id != id
    ensures IsSubseq(r, ps)
  {
    if resposta.Some? && (resposta.value.data.Some? || resposta.value.error.None?) then
      FilterSpec(ps, (p: Pessoa) => p.id != id);
      Filter(ps, (p: Pessoa) => p.id != id)
    else
      IsSubseqRefl(ps);
      ps
  }

  /** The screen's state. */
  class GestaoPessoas {
    var pessoas: seq<Pessoa>
    var editando: Option<Pessoa>
    var dialogAberto: bool
    var form: PessoaForm
    var fotoSelecionada: Option<Arquivo>
    var previewFoto: string

    constructor(iniciais: seq<Pessoa>)
      ensures pessoas == iniciais && editando == None && !dialogAberto
      ensures form == EmptyPessoaForm && fotoSelecionada == None && previewFoto == ""
    {
      pessoas := iniciais;
      editando := None;
      dialogAberto := false;
      form := EmptyPessoaForm;
      fotoSelecionada := None;
      previewFoto := "";
    }

    /** `resetForm`: empty form, no photo, no preview, nothing being edited. */
    method ResetForm()
      modifies this
      ensures form == EmptyPessoaForm && fotoSelecionada == None && previewFoto == "" && editando == None
      ensures pessoas == old(pessoas) && dialogAberto == old(dialogAberto)
    {
      form := EmptyPessoaForm;
      fotoSelecionada := None;
      previewFoto := "";
      editando := None;
    }

    /** `abrirDialog`: with a person, edit it with its fields in the form and
      its photo previewed; without, a blank form. */
    method AbrirDialog(p: Option<Pessoa>)
      modifies this
      ensures dialogAberto && pessoas == old(pessoas) && editando == p
      ensures p.Some? ==>
        form == FormDe(p.value) && previewFoto == OrEmpty(p.value.foto) && fotoSelecionada == old(fotoSelecionada)
      ensures p.None? ==> form == EmptyPessoaForm && fotoSelecionada == None && previewFoto == ""
    {
      if p.Some? {
        editando := p;
        form := FormDe(p.value);
        previewFoto := OrEmpty(p.value.foto);
      } else {
        ResetForm();
      }
      dialogAberto := true;
    }

    /** `handleFotoChange`: no file changes nothing; a file failing a check
      is reported and changes nothing; an accepted file becomes the
      selected photo. */
    method FotoChange(arquivo: Option<Arquivo>) returns (erro: Option<ErroArquivo>)
      modifies this
      ensures arquivo.None? ==> erro.None? && fotoSelecionada == old(fotoSelecionada)
      ensures arquivo.Some? ==> erro == VerificarFoto(arquivo.value)
      ensures arquivo.Some? && erro.None? ==> fotoSelecionada == arquivo
      ensures erro.Some? ==> fotoSelecionada == old(fotoSelecionada)
      ensures pessoas == old(pessoas) && form == old(form) && editando == old(editando)
      ensures dialogAberto == old(dialogAberto) && previewFoto == old(previewFoto)
    {
      erro := None;
      if arquivo.Some? {
        erro := VerificarFoto(arquivo.value);
        if erro.None? {
          fotoSelecionada := arquivo;
        }
      }
    }

    /** `salvarPessoa`. A form failing validation is reported and no
      request is sent. Otherwise the record goes out as an update of the
      person being edited or as a creation; `resposta` is the server's
      answer, `None` when the request threw. The list follows
      `AposSalvar`; the dialog closes and the form resets only when an
      answer came back without an error. */
    method Salvar(now: nat, resposta: Option<ApiResponse<Pessoa>>) returns (erro: Option<ErroPessoa>, pedido: Option<Pedido>)
      modifies this
      ensures erro == ValidarPessoa(old(form))
      ensures erro.Some? ==> pedido.None? && pessoas == old(pessoas)
      ensures erro.None? ==>
        var dados := Dados(old(form), UrlFoto(old(form), old(fotoSelecionada), now));
        && pedido == Some(if old(editando).Some? then Put(old(editando).value.id, dados) else Post(dados))
        && pessoas == AposSalvar(old(pessoas), old(editando), resposta)
      ensures erro.None? && resposta.Some? && resposta.value.error.None? ==>
        && !dialogAberto && form == EmptyPessoaForm && editando == None
        && fotoSelecionada == None && previewFoto == ""
      ensures !(erro.None? && resposta.Some? && resposta.value.error.None?) ==>
        && dialogAberto == old(dialogAberto) && form == old(form) && editando == old(editando)
        && fotoSelecionada == old(fotoSelecionada) && previewFoto == old(previewFoto)
    {
      erro := ValidarPessoa(form);
      if erro.Some? {
        return erro, None;
      }
      var dados := Dados(form, UrlFoto(form, fotoSelecionada, now));
      pedido := Some(if editando.Some? then Put(editando.value.id, dados) else Post(dados));
      pessoas := AposSalvar(pessoas, editando, resposta);
      if resposta.None? || resposta.value.error.Some? {
        return;
      }
      dialogAberto := false;
      ResetForm();
    }

    /** `excluirPessoa`: nothing is sent unless the user confirms; then the
      list follows `AposExcluir`. */
    method Excluir(p: Pessoa, confirmado: bool, resposta: Option<ApiResponse<()>>) returns (pedido: Option<Pedido>)
      modifies this
      ensures !confirmado ==> pedido.None? && pessoas == old(pessoas)
      ensures confirmado ==> pedido == Some(Del(p.id)) && pessoas == AposExcluir(old(pessoas), p.id, resposta)
      ensures form == old(form) && editando == old(editando) && dialogAberto == old(dialogAberto)
      ensures fotoSelecionada == old(fotoSelecionada) && previewFoto == old(previewFoto)
    {
      if !confirmado {
        return None;
      }
      pedido := Some(Del(p.id));
      pessoas := AposExcluir(pessoas, p.id, resposta);
    }
  }
}
