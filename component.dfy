/**
 * The refuel registration component: the form fields, the ledger, the current
 * page and the expanded rows, with one method per event handler. Each setter
 * updater is one atomic state transition.
 */
module Component {
  import opened Amount
  import opened Ledger
  import opened View

  class CadastroAbastecimento {
    var registros: seq<Registro>
    var nome: string
    var whatsapp: string
    var placa: string
    /** The amount field: the digits typed so far, read as cents on submit. */
    var valor: string
    var paginaAtual: int
    /** Expanded rows, keyed by the row's index within the current page. */
    var expandidos: set<int>

    /**
     * What the handlers keep true: one record per plate, every total the sum
     * over its history, every refuel's tickets given by the rule, a digits-only
     * amount field, and a page between 0 and the larger of 1 and the page count.
     */
    ghost predicate Valid()
      reads this
    {
      && DistinctPlacas(registros)
      && TotalsConsistent(registros)
      && TicketRuleHolds(registros)
      && IsDigits(valor)
      && 0 <= paginaAtual <= Max(1, PageCount(|registros|))
    }

    /** `numeroPaginas`. */
    function NumeroPaginas(): (n: nat)
      reads this
      ensures n * RegistrosPorPagina >= |registros|
    {
      PageCount(|registros|)
    }

    /** `registrosAtuais`: the records the table shows. */
    function RegistrosAtuais(): (r: seq<Registro>)
      reads this
      ensures |r| <= RegistrosPorPagina
      ensures forall x :: x in r ==> x in registros
    {
      PageSlice(registros, paginaAtual)
    }

    /** The initial `useState` values. */
    constructor ()
      ensures Valid()
      ensures registros == [] && nome == "" && whatsapp == "" && placa == "" && valor == ""
      ensures paginaAtual == 1 && expandidos == {}
    {
      registros := [];
      nome, whatsapp, placa, valor := "", "", "", "";
      paginaAtual := 1;
      expandidos := {};
    }

    /** The `onChange` of the name field. */
    method SetNome(s: string)
      requires Valid()
      modifies this`nome
      ensures Valid() && nome == s
    {
      nome := s;
    }

    /** The `onChange` of the contact field. */
    method SetWhatsapp(s: string)
      requires Valid()
      modifies this`whatsapp
      ensures Valid() && whatsapp == s
    {
      whatsapp := s;
    }

    /** The `onChange` of the plate field. */
    method SetPlaca(s: string)
      requires Valid()
      modifies this`placa
      ensures Valid() && placa == s
    {
      placa := s;
    }

    /** `handleValorChange`: the field keeps only the digits of what was typed. */
    method ValorChange(input: string)
      requires Valid()
      modifies this`valor
      ensures Valid()
      ensures valor == KeepDigits(input)
    {
      valor := KeepDigits(input);
    }

    /**
     * `handleSubmit`. The field holds digits only, so `valor.includes("R$")`
     * is false and the amount is the digits read as cents. The refuel, stamped
     * with `data`, is upserted into the ledger under the current plate, name
     * and contact, and the four form fields are cleared.
     */
    method Submit(data: string)
      requires Valid()
      modifies this`registros, this`nome, this`whatsapp, this`placa, this`valor
      ensures Valid()
      ensures registros == Upsert(old(registros), old(placa), old(nome), old(whatsapp),
        Abastecimento(data, DigitsValue(old(valor)), TicketsFor(DigitsValue(old(valor)))))
      ensures nome == "" && whatsapp == "" && placa == "" && valor == ""
    {
      var cents := DigitsValue(valor);
      var novo := Abastecimento(data, cents, TicketsFor(cents));
      UpsertKeepsDistinct(registros, placa, nome, whatsapp, novo);
      UpsertKeepsTotals(registros, placa, nome, whatsapp, novo);
      UpsertKeepsTicketRule(registros, placa, nome, whatsapp, novo);
      registros := Upsert(registros, placa, nome, whatsapp, novo);
      nome, whatsapp, placa, valor := "", "", "", "";
    }

    /** `toggleExpand(index)`. */
    method ToggleExpand(index: int)
      requires Valid()
      modifies this`expandidos
      ensures Valid()
      ensures expandidos == Toggle(old(expandidos), index)
    {
      expandidos := Toggle(expandidos, index);
    }

    /**
     * The Previous button: disabled on page 1, otherwise
     * `Math.max(prev - 1, 1)`. Either way the page never goes below 1.
     */
    method Prev()
      requires Valid()
      modifies this`paginaAtual
      ensures Valid()
      ensures paginaAtual == Max(old(paginaAtual) - 1, 1)
      ensures paginaAtual >= 1
    {
      if paginaAtual != 1 {
        paginaAtual := Max(paginaAtual - 1, 1);
      }
    }

    /**
     * The Next button: disabled on the last page, otherwise
     * `Math.min(prev + 1, numeroPaginas)`. Either way the page never goes
     * above the page count, which on an empty ledger means page 0.
     */
    method Next()
      requires Valid()
      modifies this`paginaAtual
      ensures Valid()
      ensures paginaAtual == Min(old(paginaAtual) + 1, NumeroPaginas())
      ensures paginaAtual <= NumeroPaginas()
    {
      if paginaAtual != NumeroPaginas() {
        paginaAtual := Min(paginaAtual + 1, NumeroPaginas());
      }
    }
  }

  /**
   * On an empty ledger Next is enabled on page 1 and moves to page 0. The
   * first record submitted afterwards is not shown on page 0; pressing Prev
   * (enabled, since the page is not 1) moves to page 1, which shows it, as
   * pressing Next would.
   */
  method EmptyLedgerNext(data: string)
    returns (pageAfterNext: int, shownOnPage0: seq<Registro>, ledger: seq<Registro>,
             shownAfterPrev: seq<Registro>)
    ensures pageAfterNext == 0
    ensures |ledger| == 1 && shownOnPage0 == []
    ensures shownAfterPrev == ledger
  {
    var c := new CadastroAbastecimento();
    c.Next();
    pageAfterNext := c.paginaAtual;
    c.SetPlaca("ABC1234");
    c.Submit(data);
    shownOnPage0 := c.RegistrosAtuais();
    ledger := c.registros;
    c.Prev();
    shownAfterPrev := c.RegistrosAtuais();
  }
}
