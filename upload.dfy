/** The checks the screens apply to a file picked in an image input: the
    declared media type must be an image and the size must stay within a
    limit. The file's contents are not part of this model. */
module Upload {
  import opened Base
  import opened Text

  /** A picked file: its name, declared media type and size in bytes. */
  datatype Arquivo = Arquivo(nome: string, tipo: string, tamanho: nat)

  datatype ErroArquivo = NaoImagem | ArquivoGrande

  /** The type check runs first, then the size check against `limite`
      bytes (inclusive). */
  function VerificarArquivo(a: Arquivo, limite: nat): (r: Option<ErroArquivo>)
    ensures r.None? <==> StartsWith(a.tipo, "image/") && a.tamanho <= limite
    ensures r == Some(NaoImagem) <==> !StartsWith(a.tipo, "image/")
  {
    if !StartsWith(a.tipo, "image/") then Some(NaoImagem)
    else if a.tamanho > limite then Some(ArquivoGrande)
    else None
  }

  /** A file accepted under a limit is accepted under any larger one. */
  lemma VerificarArquivoMonotone(a: Arquivo, limite: nat, maior: nat)
    requires limite <= maior
    requires VerificarArquivo(a, limite).None?
    ensures VerificarArquivo(a, maior).None?
  {
  }
}
