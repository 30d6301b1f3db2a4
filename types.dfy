/** The records the screens exchange with the server (types/index.ts):
    persons, officers, occurrence reports and the statistics summary. Dates
    and timestamps are kept as the strings the server sends; the screens that
    compare them read them through a clock or parser supplied as a parameter.
    Geographic coordinates are not part of this model. */
module Types {
  import opened Base
  import opened Tally

  datatype TipoPessoa = Declarante | Vitima | Suspeito | Testemunha

  datatype StatusPessoa = Ativo | Procurado | Detido

  datatype Periculosidade = Baixo | Medio | Alto

  datatype Pessoa = Pessoa(
    id: string,
    nome: string,
    codinome: Option<string>,
    tipo: TipoPessoa,
    bilheteIdentidade: string,
    telefone: Option<string>,
    foto: Option<string>,
    endereco: Option<string>,
    dataNascimento: Option<string>,
    distrito: Option<string>,
    bairro: Option<string>,
    municipio: Option<string>,
    status: Option<StatusPessoa>,
    nivelPericulosidade: Option<Periculosidade>,
    crimesRelacionados: Option<seq<string>>)

  datatype Policial = Policial(
    id: string,
    nome: string,
    posto: string,
    matricula: string,
    distrito: Option<string>,
    esquadra: Option<string>)

  /** A person involved in a report and the role they play in it. */
  datatype Envolvido = Envolvido(pessoaId: string, papel: string)

  datatype StatusBoletim = Registrado | EmAndamento | Resolvido | Arquivado

  datatype Boletim = Boletim(
    id: string,
    numeroBoletim: string,
    dataHoraOcorrencia: string,
    tipoOcorrencia: string,
    local: string,
    descricao: string,
    declaranteId: string,
    policialId: string,
    envolvidos: seq<Envolvido>,
    status: StatusBoletim,
    criadoEm: string,
    atualizadoEm: string,
    distrito: string,
    bairro: string,
    municipio: string,
    evidencias: Option<seq<string>>,
    correlacionado: Option<bool>,
    crimesRelacionados: Option<seq<string>>)

  /** One day of the occurrence counts the reports screen charts. */
  datatype EstatisticasDiarias = EstatisticasDiarias(
    data: string,
    roubo: nat,
    agressao: nat,
    furto: nat,
    outros: nat,
    total: nat,
    distrito: Option<string>)

  /** The statistics summary: the number of reports and three tallies, by
      type, by status and by day of occurrence. */
  datatype Estatisticas = Estatisticas(
    totalBoletins: nat,
    porTipo: Tally,
    porStatus: Tally,
    ultimosDias: Tally)

  /** What the API hook hands a screen: the payload on success, the message
      on failure. */
  datatype ApiResponse<T> = ApiResponse(data: Option<T>, error: Option<string>)

  /** The wire names of the person types. */
  function TipoPessoaName(t: TipoPessoa): string
  {
    match t
    case Declarante => "declarante"
    case Vitima => "vitima"
    case Suspeito => "suspeito"
    case Testemunha => "testemunha"
  }

  /** The wire names of the report states. */
  function StatusBoletimName(s: StatusBoletim): string
  {
    match s
    case Registrado => "registrado"
    case EmAndamento => "em_andamento"
    case Resolvido => "resolvido"
    case Arquivado => "arquivado"
  }
}
