/** Self-registration of an officer (components/CadastroPolicial.tsx): an
    ordered chain of form checks, badge-number generation, and a submit that
    appends the new officer to the session's list and clears the form. */
module CadastroPolicial {
  import opened Base
  import opened Text
  import opened Types
  import opened AuthContext

  datatype Form = Form(nome: string, posto: string, matricula: string, senha: string, confirmarSenha: string)

  const EmptyForm := Form("", "", "", "", "")

  /** The checks of `validarFormulario`, in the order they run. */
  datatype Erro =
    | NomeObrigatorio
    | PostoObrigatorio
    | MatriculaObrigatoria
    | MatriculaFormato
    | SenhaObrigatoria
    | SenhaCurta
    | SenhasDiferentes

  /** The position of a check in the chain. */
  function Ordem(e: Erro): nat
  {
    match e
    case NomeObrigatorio => 0
    case PostoObrigatorio => 1
    case MatriculaObrigatoria => 2
    case MatriculaFormato => 3
    case SenhaObrigatoria => 4
    case SenhaCurta => 5
    case SenhasDiferentes => 6
  }

  /** `/^PN\d{6}$/`: `PN` followed by exactly six decimal digits. */
  predicate IsMatricula(m: string)
  {
    |m| == 8 && m[..2] == "PN" && forall i :: 2 <= i < 8 ==> IsDigit(m[i])
  }

  /** Whether the form passes one check. Presence of the name, the badge
      number and the password is judged after trimming; the length of the
      password is measured untrimmed, in UTF-16 code units. */
  predicate Passa(f: Form, e: Erro)
  {
    match e
    case NomeObrigatorio => Trim(f.nome) != ""
    case PostoObrigatorio => f.posto != ""
    case MatriculaObrigatoria => Trim(f.matricula) != ""
    case MatriculaFormato => IsMatricula(f.matricula)
    case SenhaObrigatoria => Trim(f.senha) != ""
    case SenhaCurta => Utf16Length(f.senha) >= 4
    case SenhasDiferentes => f.senha == f.confirmarSenha
  }

  /** `validarFormulario`: the first check the form fails, or `None` when it
      passes them all. */
  function Validar(f: Form): (r: Option<Erro>)
    ensures r.None? <==> forall e :: Passa(f, e)
    ensures r.Some? ==> !Passa(f, r.value) && forall e :: Ordem(e) < Ordem(r.value) ==> Passa(f, e)
  {
    if Trim(f.nome) == "" then assert !Passa(f, NomeObrigatorio); Some(NomeObrigatorio)
    else if f.posto == "" then assert !Passa(f, PostoObrigatorio); Some(PostoObrigatorio)
    else if Trim(f.matricula) == "" then assert !Passa(f, MatriculaObrigatoria); Some(MatriculaObrigatoria)
    else if !IsMatricula(f.matricula) then assert !Passa(f, MatriculaFormato); Some(MatriculaFormato)
    else if Trim(f.senha) == "" then assert !Passa(f, SenhaObrigatoria); Some(SenhaObrigatoria)
    else if Utf16Length(f.senha) < 4 then assert !Passa(f, SenhaCurta); Some(SenhaCurta)
    else if f.senha != f.confirmarSenha then assert !Passa(f, SenhasDiferentes); Some(SenhasDiferentes)
    else None
  }

  /** A name made only of spaces is reported as missing, whatever else the
      form holds. */
  lemma BlankNomeRejected(f: Form)
    requires forall i :: 0 <= i < |f.nome| ==> IsSpace(f.nome[i])
    ensures Validar(f) == Some(NomeObrigatorio)
  {
    TrimEmptyIff(f.nome);
  }

  /** A password of spaces only is reported as missing, not as too short,
      even when it has four or more characters. */
  lemma BlankSenhaRejected(f: Form)
    requires forall e :: Ordem(e) < Ordem(SenhaObrigatoria) ==> Passa(f, e)
    requires forall i :: 0 <= i < |f.senha| ==> IsSpace(f.senha[i])
    ensures Validar(f) == Some(SenhaObrigatoria)
  {
    assert Passa(f, NomeObrigatorio) && Passa(f, PostoObrigatorio);
    assert Passa(f, MatriculaObrigatoria) && Passa(f, MatriculaFormato);
    TrimEmptyIff(f.senha);
  }

  /** A name made of an em space only is blank too: `trim` removes every
      Unicode space separator. */
  lemma EmSpaceNomeRejected(f: Form)
    requires f.nome == "\U{2003}"
    ensures Validar(f) == Some(NomeObrigatorio)
  {
    BlankNomeRejected(f);
  }

  /** Two emoji make a password of four UTF-16 code units, long enough. */
  lemma EmojiSenhaLongaOBastante(f: Form)
    requires f.senha == "\U{1F600}\U{1F600}"
    ensures Passa(f, SenhaCurta)
  {
    assert f.senha[1..][1..] == [];
  }

  /** A well-formed badge number is never blank, so the presence check on it
      is subsumed by the format check. */
  lemma MatriculaNotBlank(m: string)
    requires IsMatricula(m)
    ensures Trim(m) != ""
  {
    TrimEmptyIff(m);
    assert !IsSpace(m[0]);
  }

  /** `PN${Math.floor(100000 + random * 900000)}` for a `random` in [0, 1). */
  function GerarMatricula(random: real): (m: string)
    requires 0.0 <= random < 1.0
    ensures IsMatricula(m)
  {
    var numero := (100000.0 + random * 900000.0).Floor;
    assert 100000 <= numero < 1000000;
    NatToStringLength(numero, 5);
    "PN" + NatToString(numero)
  }

  /** The registration form and the error it shows. */
  class CadastroForm {
    var form: Form
    var erro: Option<Erro>

    constructor()
      ensures form == EmptyForm && erro == None
    {
      form := EmptyForm;
      erro := None;
    }

    /** The generate button: fills in a generated badge number. */
    method Gerar(random: real)
      requires 0.0 <= random < 1.0
      modifies this
      ensures form == old(form).(matricula := GerarMatricula(random))
      ensures erro == old(erro)
    {
      form := form.(matricula := GerarMatricula(random));
    }

    /** `handleSubmit`. When a check fails its error is shown and nothing
        else changes. Otherwise the officer (id `Date.now()`, the form's
        name, rank, badge and password) is added to the session's list, the
        form is cleared and no error is shown. */
    method Submit(auth: AuthSession, now: nat) returns (cadastrado: bool)
      modifies this, auth
      ensures Validar(old(form)).Some? ==>
        && !cadastrado && erro == Validar(old(form)) && form == old(form)
        && auth.policiais == old(auth.policiais) && auth.storage == old(auth.storage)
      ensures Validar(old(form)).None? ==>
        var novo := Credencial(Policial(NatToString(now), old(form).nome, old(form).posto, old(form).matricula, None, None), old(form).senha);
        && cadastrado && erro == None && form == EmptyForm
        && auth.policiais == old(auth.policiais) + [novo]
        && auth.storage == old(auth.storage)[PoliciaisKey := auth.encodePoliciais(auth.policiais)]
      ensures auth.user == old(auth.user) && auth.accessToken == old(auth.accessToken)
    {
      var falha := Validar(form);
      if falha.Some? {
        erro := falha;
        return false;
      }
      erro := None;
      var novo := Credencial(Policial(NatToString(now), form.nome, form.posto, form.matricula, None, None), form.senha);
      auth.AdicionarPolicial(novo);
      form := EmptyForm;
      cadastrado := true;
    }
  }
}
