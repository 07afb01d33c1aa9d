/**
 * The administrators' table of registered processes: the fetch effect that
 * fills it, the unwrapping of each fetched item's `props`, and the rule each
 * column uses to stand in for a missing value ("N/A" or "-").
 */
module AdminProcessTable {
  import opened Browser
  import opened Decimal

  /**
   * One process as the table reads it. A field the JSON leaves out, or sets
   * to null, is None.
   */
  datatype ProcessRecord = ProcessRecord(
    id: Option<string>,
    nomeProcesso: Option<string>,
    objeto: Option<string>,
    tipoContrato: Option<string>,
    etapaAtual: Option<string>,
    escolasImpactadas: Option<int>,
    estudantesImpactados: Option<int>,
    valorTotal: Option<real>,
    valorExecutado: Option<real>,
    percentualExecucao: Option<real>,
    dataOrdemServico: Option<string>,
    dataRegistro: Option<string>,
    dataPrazoFinal: Option<string>,
    dataEmpenho: Option<string>,
    numeroEmpenho: Option<string>,
    tempoRestante: Option<string>,
    nivelRisco: Option<string>,
    probabilidade: Option<string>,
    impacto: Option<string>,
    userLocation: Option<string>)

  /** An element of the array GET /processos returns: the record sits under `props`. */
  datatype StoredProcess = StoredProcess(props: ProcessRecord)

  /** `data.map(item => item.props)`. */
  function Unwrap(items: seq<StoredProcess>): (r: seq<ProcessRecord>)
    ensures |r| == |items|
    ensures forall i :: 0 <= i < |items| ==> r[i] == items[i].props
  {
    if items == [] then [] else [items[0].props] + Unwrap(items[1..])
  }

  /** Unwrapping a concatenation unwraps each part: the order of the reply is kept. */
  lemma {:induction false} UnwrapAppend(a: seq<StoredProcess>, b: seq<StoredProcess>)
    ensures Unwrap(a + b) == Unwrap(a) + Unwrap(b)
    decreases |a|
  {
    if a == [] {
      assert a + b == b;
    } else {
      var rest := a[1..] + b;
      assert a + b == [a[0]] + rest;
      UnwrapAppend(a[1..], b);
      assert Unwrap(a + b) == [a[0].props] + Unwrap(rest);
    }
  }

  /**
   * What a cell shows: plain text, or a value the page formats with
   * `toFixed(2)` (an amount in reais or a percentage) or with
   * `toLocaleDateString("pt-BR")`.
   */
  datatype Cell = Text(text: string) | Reais(amount: real) | Percent(value: real) | LocalDate(iso: string)

  const NotAvailable := "N/A"
  const NoDate := "-"

  /** `{value || "N/A"}`: an absent or empty text shows "N/A". */
  function OrCell(v: Option<string>): (c: Cell)
    ensures !Truthy(v) ==> c == Text(NotAvailable)
    ensures Truthy(v) ==> c == Text(v.value)
  {
    Text(Or(v, NotAvailable))
  }

  /** `{value ?? "N/A"}` on text: only an absent value shows "N/A"; "" shows as "". */
  function CoalesceCell(v: Option<string>): (c: Cell)
    ensures v.None? ==> c == Text(NotAvailable)
    ensures v.Some? ==> c == Text(v.value)
  {
    Text(Coalesce(v, NotAvailable))
  }

  /** `{count ?? "N/A"}` on a number, which React prints in decimal. */
  function CountCell(v: Option<int>): (c: Cell)
    ensures c == Text(NotAvailable) <==> v.None?
  {
    match v
    case Some(n) =>
      assert IntToString(n)[0] == '-' || IsDigit(IntToString(n)[0]);
      Text(IntToString(n))
    case None => Text(NotAvailable)
  }

  /** `value !== undefined ? "R$ " + value.toFixed(2) : "N/A"`. */
  function ReaisCell(v: Option<real>): (c: Cell)
    ensures c.Reais? <==> v.Some?
    ensures v.Some? ==> c.amount == v.value
    ensures v.None? ==> c == Text(NotAvailable)
  {
    match v
    case Some(x) => Reais(x)
    case None => Text(NotAvailable)
  }

  function PercentCell(v: Option<real>): (c: Cell)
    ensures c.Percent? <==> v.Some?
    ensures v.Some? ==> c.value == v.value
    ensures v.None? ==> c == Text(NotAvailable)
  {
    match v
    case Some(x) => Percent(x)
    case None => Text(NotAvailable)
  }

  /** `date ? new Date(date).toLocaleDateString("pt-BR") : "-"`. */
  function DateCell(v: Option<string>): (c: Cell)
    ensures c.LocalDate? <==> Truthy(v)
    ensures Truthy(v) ==> c.iso == v.value
    ensures !Truthy(v) ==> c == Text(NoDate)
  {
    if Truthy(v) then LocalDate(v.value) else Text(NoDate)
  }

  /** The column headings, left to right. */
  const Headers: seq<string> := [
    "ID", "Nome do Processo", "Objeto", "Tipo de Contrato", "Etapa Atual",
    "Escolas Impactadas", "Estudantes Impactados", "Valor Total", "Valor Executado",
    "Percentual Execução", "Data Ordem de Serviço", "Data Registro", "Data Prazo Final",
    "Data Empenho", "Numero Empenho", "Tempo Restante", "Nivel de Risco", "Probabilidade",
    "Impacto", "Local do Usuário"]

  /** The body row of one process, cell by cell under Headers. */
  function Row(p: ProcessRecord): (r: seq<Cell>)
    ensures |r| == |Headers|
  {
    [ OrCell(p.id), OrCell(p.nomeProcesso), OrCell(p.objeto), OrCell(p.tipoContrato), OrCell(p.etapaAtual),
      CountCell(p.escolasImpactadas), CountCell(p.estudantesImpactados),
      ReaisCell(p.valorTotal), ReaisCell(p.valorExecutado), PercentCell(p.percentualExecucao),
      DateCell(p.dataOrdemServico), DateCell(p.dataRegistro), DateCell(p.dataPrazoFinal), DateCell(p.dataEmpenho),
      CoalesceCell(p.numeroEmpenho), CoalesceCell(p.tempoRestante), CoalesceCell(p.nivelRisco),
      CoalesceCell(p.probabilidade), CoalesceCell(p.impacto), CoalesceCell(p.userLocation) ]
  }

  /** The table body: `processes.map(...)`. */
  function Body(ps: seq<ProcessRecord>): (rows: seq<seq<Cell>>)
    ensures |rows| == |ps|
    ensures forall i :: 0 <= i < |ps| ==> rows[i] == Row(ps[i])
  {
    if ps == [] then [] else [Row(ps[0])] + Body(ps[1..])
  }

  /** Twenty columns, every row as wide as the heading row. */
  lemma {:induction false} TableIsRectangular(ps: seq<ProcessRecord>)
    ensures |Headers| == 20
    ensures forall row :: row in Body(ps) ==> |row| == 20
  {
    var rows := Body(ps);
    forall row | row in rows ensures |row| == 20 {
      var i :| 0 <= i < |rows| && rows[i] == row;
      assert row == Row(ps[i]);
    }
  }

  /**
   * The text columns that use `||` and those that use `??` differ exactly on
   * the empty string: an empty id shows "N/A", an empty commitment number
   * shows an empty cell, and a count of 0 shows "0".
   */
  lemma EmptyAndZeroCells(p: ProcessRecord)
    requires p.id == Some("") && p.numeroEmpenho == Some("") && p.escolasImpactadas == Some(0)
    ensures Row(p)[0] == Text(NotAvailable)
    ensures Row(p)[14] == Text("")
    ensures Row(p)[5] == Text("0")
  {
    assert IntToString(0) == "0";
  }

  /** What the page renders: the loading text, the error text, or the table. */
  datatype View =
    | Loading
    | ErrorText(message: string)
    | Table(title: string, headers: seq<string>, rows: seq<seq<Cell>>)

  const LoadFailedMessage := "Erro ao carregar os dados. Tente novamente mais tarde."

  /** The page's state and its fetch effect. */
  class ProcessTablePage {
    var processes: seq<ProcessRecord>
    var isLoading: bool
    var error: string

    constructor ()
      ensures processes == [] && isLoading && error == ""
    {
      processes := [];
      isLoading := true;
      error := "";
    }

    /**
     * The effect's `fetchProcesses` with the reply given: on success the
     * unwrapped list, on a non-ok reply, an unreadable body or a thrown
     * request the error message; `isLoading` is cleared on every path.
     */
    method Load(reply: ListReply<StoredProcess>)
      modifies this
      ensures !isLoading
      ensures ListItems(reply).Some? ==> processes == Unwrap(ListItems(reply).value) && error == old(error)
      ensures ListItems(reply).None? ==> processes == old(processes) && error == LoadFailedMessage
    {
      var items := ListItems(reply);
      if items.Some? {
        processes := Unwrap(items.value);
      } else {
        error := LoadFailedMessage;
      }
      isLoading := false;
    }

    /** The early returns for loading and error, then the table. */
    function Render(): (v: View)
      reads this
      ensures isLoading ==> v == Loading
      ensures !isLoading && error != "" ==> v == ErrorText(error)
      ensures !isLoading && error == "" ==> v.Table? && v.headers == Headers && |v.rows| == |processes|
      ensures !isLoading && error == "" ==> v == Table("Tabela de Processos", Headers, Body(processes))
      ensures !isLoading && error == "" ==> forall i :: 0 <= i < |processes| ==> v.rows[i] == Row(processes[i])
    {
      if isLoading then Loading
      else if error != "" then ErrorText(error)
      else Table("Tabela de Processos", Headers, Body(processes))
    }
  }

  /** Mounting the page and completing its fetch: what is on screen afterwards. */
  method Mount(reply: ListReply<StoredProcess>) returns (page: ProcessTablePage, v: View)
    ensures fresh(page)
    ensures ListItems(reply).None? ==> v == ErrorText(LoadFailedMessage) && page.processes == []
    ensures ListItems(reply).Some? ==>
      v == Table("Tabela de Processos", Headers, Body(Unwrap(ListItems(reply).value)))
  {
    page := new ProcessTablePage();
    page.Load(reply);
    v := page.Render();
  }
}
