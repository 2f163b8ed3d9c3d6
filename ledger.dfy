/**
 * The refuel ledger: one `Registro` per plate, each with its history of
 * refuels (`Abastecimento`) and its ticket total. A submission is applied as
 * one atomic update of the whole list (`Upsert`).
 */
module Ledger {
  import opened Amount

  /** One refuel: `data` is the submission timestamp text, `valor` the amount in cents. */
  datatype Abastecimento = Abastecimento(data: string, valor: nat, tickets: nat)

  /** The record of one plate. */
  datatype Registro = Registro(
    nome: string,
    whatsapp: string,
    placa: string,
    abastecimentos: seq<Abastecimento>,
    totalTickets: nat)

  /**
   * The `reduce((total, ab) => total + ab.tickets, 0)` over a history, folded
   * from the left: it is 0 on an empty history and no refuel's tickets exceed it.
   */
  function SumTickets(abs: seq<Abastecimento>): (total: nat)
    ensures abs == [] ==> total == 0
    ensures forall k :: 0 <= k < |abs| ==> abs[k].tickets <= total
  {
    if abs == [] then 0 else SumTickets(abs[..|abs| - 1]) + abs[|abs| - 1].tickets
  }

  /** The sum over two histories joined is the sum of their sums. */
  lemma {:induction false} SumTicketsAppend(a: seq<Abastecimento>, b: seq<Abastecimento>)
    ensures SumTickets(a + b) == SumTickets(a) + SumTickets(b)
  {
    if b == [] {
      assert a + b == a;
    } else {
      var b' := b[..|b| - 1];
      assert (a + b)[..|a + b| - 1] == a + b';
      SumTicketsAppend(a, b');
    }
  }

  predicate HasPlaca(regs: seq<Registro>, placa: string) {
    exists j :: 0 <= j < |regs| && regs[j].placa == placa
  }

  /** At most one record per plate. */
  predicate DistinctPlacas(regs: seq<Registro>) {
    forall i, j :: 0 <= i < j < |regs| ==> regs[i].placa != regs[j].placa
  }

  /** Every record's total is the sum of the tickets of its history. */
  predicate TotalsConsistent(regs: seq<Registro>) {
    forall k :: 0 <= k < |regs| ==> regs[k].totalTickets == SumTickets(regs[k].abastecimentos)
  }

  /** Every refuel in the ledger carries the tickets the rule gives its amount. */
  predicate TicketRuleHolds(regs: seq<Registro>) {
    forall k, m :: 0 <= k < |regs| && 0 <= m < |regs[k].abastecimentos| ==>
      regs[k].abastecimentos[m].tickets == TicketsFor(regs[k].abastecimentos[m].valor)
  }

  /** `findIndex` started at `from`: the first record at or after `from` with this plate, or -1. */
  function FindPlacaFrom(regs: seq<Registro>, placa: string, from: nat): (i: int)
    requires from <= |regs|
    ensures i == -1 || from <= i < |regs|
    ensures i != -1 ==> regs[i].placa == placa
    ensures forall j :: from <= j < |regs| && (i == -1 || j < i) ==> regs[j].placa != placa
    decreases |regs| - from
  {
    if from == |regs| then -1
    else if regs[from].placa == placa then from
    else FindPlacaFrom(regs, placa, from + 1)
  }

  /** `findIndex((r) => r.placa === placa)`: the first index holding the plate, or -1 when none does. */
  function FindPlaca(regs: seq<Registro>, placa: string): (i: int)
    ensures -1 <= i < |regs|
    ensures i == -1 <==> !HasPlaca(regs, placa)
    ensures i != -1 ==> regs[i].placa == placa && forall j :: 0 <= j < i ==> regs[j].placa != placa
  {
    FindPlacaFrom(regs, placa, 0)
  }

  /**
   * The `setRegistros` updater of a submission: the record of `placa`, if
   * there is one, gets the new name and contact, the refuel appended to its
   * history and its total recomputed from the whole history; otherwise a
   * record for `placa` holding just this refuel is appended to the list.
   */
  function Upsert(regs: seq<Registro>, placa: string, nome: string, whatsapp: string,
                  ab: Abastecimento): (r: seq<Registro>)
    ensures HasPlaca(regs, placa) ==> |r| == |regs|
    ensures !HasPlaca(regs, placa) ==> |r| == |regs| + 1 && r[..|regs|] == regs
    ensures HasPlaca(r, placa)
    ensures forall j :: 0 <= j < |regs| && regs[j].placa != placa ==> r[j] == regs[j]
  {
    var i := FindPlaca(regs, placa);
    if i != -1 then
      var abs := regs[i].abastecimentos + [ab];
      var r := regs[i := regs[i].(nome := nome, whatsapp := whatsapp, abastecimentos := abs,
                                  totalTickets := SumTickets(abs))];
      assert r[i].placa == placa;
      r
    else
      var r := regs + [Registro(nome, whatsapp, placa, [ab], ab.tickets)];
      assert r[|regs|].placa == placa;
      r
  }

  /**
   * Submitting a plate the ledger holds (first at `i`) updates that record in
   * place and nothing else: same length, same position, same plate, the new
   * name and contact, the history extended by the refuel at its end, and the
   * total recomputed as the sum over the whole new history.
   */
  lemma UpsertExisting(regs: seq<Registro>, placa: string, nome: string, whatsapp: string,
                       ab: Abastecimento, i: nat)
    requires i < |regs| && regs[i].placa == placa
    requires forall j :: 0 <= j < i ==> regs[j].placa != placa
    ensures var r := Upsert(regs, placa, nome, whatsapp, ab);
      && |r| == |regs|
      && r[i].placa == placa && r[i].nome == nome && r[i].whatsapp == whatsapp
      && r[i].abastecimentos == regs[i].abastecimentos + [ab]
      && r[i].totalTickets == SumTickets(r[i].abastecimentos)
      && r[i].totalTickets == SumTickets(regs[i].abastecimentos) + ab.tickets
      && forall j :: 0 <= j < |regs| && j != i ==> r[j] == regs[j]
  {
    SumTicketsAppend(regs[i].abastecimentos, [ab]);
    assert [ab][..0] == [];
  }

  /**
   * Submitting a new plate appends one record at the end holding exactly this
   * refuel, with the refuel's tickets as its total; earlier records keep their
   * order and contents.
   */
  lemma UpsertNew(regs: seq<Registro>, placa: string, nome: string, whatsapp: string,
                  ab: Abastecimento)
    requires !HasPlaca(regs, placa)
    ensures var r := Upsert(regs, placa, nome, whatsapp, ab);
      && |r| == |regs| + 1 && r[..|regs|] == regs
      && r[|regs|] == Registro(nome, whatsapp, placa, [ab], ab.tickets)
      && r[|regs|].totalTickets == SumTickets(r[|regs|].abastecimentos)
  {
    assert [ab][..0] == [];
  }

  /** Plates stay unique across a submission. */
  lemma UpsertKeepsDistinct(regs: seq<Registro>, placa: string, nome: string, whatsapp: string,
                            ab: Abastecimento)
    requires DistinctPlacas(regs)
    ensures DistinctPlacas(Upsert(regs, placa, nome, whatsapp, ab))
  {
    var r := Upsert(regs, placa, nome, whatsapp, ab);
    var i := FindPlaca(regs, placa);
    if i != -1 {
      forall j | 0 <= j < |r| ensures r[j].placa == regs[j].placa {
        if j != i {
          UpsertExisting(regs, placa, nome, whatsapp, ab, i);
        }
      }
    } else {
      forall j | 0 <= j < |regs| ensures r[j].placa != placa {
      }
    }
  }

  /** Every record's total stays the sum over its history across a submission. */
  lemma UpsertKeepsTotals(regs: seq<Registro>, placa: string, nome: string, whatsapp: string,
                          ab: Abastecimento)
    requires TotalsConsistent(regs)
    ensures TotalsConsistent(Upsert(regs, placa, nome, whatsapp, ab))
  {
    var i := FindPlaca(regs, placa);
    if i != -1 {
      UpsertExisting(regs, placa, nome, whatsapp, ab, i);
      SumTicketsAppend(regs[i].abastecimentos, [ab]);
      assert [ab][..0] == [];
    } else {
      UpsertNew(regs, placa, nome, whatsapp, ab);
    }
  }

  /** A refuel that obeys the ticket rule keeps every refuel of the ledger obeying it. */
  lemma UpsertKeepsTicketRule(regs: seq<Registro>, placa: string, nome: string, whatsapp: string,
                              ab: Abastecimento)
    requires TicketRuleHolds(regs)
    requires ab.tickets == TicketsFor(ab.valor)
    ensures TicketRuleHolds(Upsert(regs, placa, nome, whatsapp, ab))
  {
    var i := FindPlaca(regs, placa);
    if i != -1 {
      UpsertExisting(regs, placa, nome, whatsapp, ab, i);
    } else {
      UpsertNew(regs, placa, nome, whatsapp, ab);
    }
  }

  /** A run of submissions of the same plate, name and contact, one per refuel of `abs`, in order. */
  function UpsertAll(regs: seq<Registro>, placa: string, nome: string, whatsapp: string,
                     abs: seq<Abastecimento>): seq<Registro>
    decreases |abs|
  {
    if abs == [] then regs
    else UpsertAll(Upsert(regs, placa, nome, whatsapp, abs[0]), placa, nome, whatsapp, abs[1..])
  }

  /** Re-associates a history extended by the head of `s` and then its tail. */
  lemma AppendHead<T>(h: seq<T>, s: seq<T>)
    requires s != []
    ensures h + [s[0]] + s[1..] == h + s
  {
    assert [s[0]] + s[1..] == s;
  }

  /**
   * Repeated submissions of a plate the ledger holds (first at `i`): the
   * record stays where it is, its history grows by exactly those refuels in
   * order, its total is the sum over the whole history, and no other record
   * changes.
   */
  lemma {:induction false} UpsertAllExisting(regs: seq<Registro>, placa: string, nome: string,
                                             whatsapp: string, abs: seq<Abastecimento>, i: nat)
    requires i < |regs| && regs[i].placa == placa
    requires forall j :: 0 <= j < i ==> regs[j].placa != placa
    requires regs[i].totalTickets == SumTickets(regs[i].abastecimentos)
    ensures var r := UpsertAll(regs, placa, nome, whatsapp, abs);
      && |r| == |regs|
      && r[i].placa == placa
      && r[i].abastecimentos == regs[i].abastecimentos + abs
      && r[i].totalTickets == SumTickets(r[i].abastecimentos)
      && forall j :: 0 <= j < |regs| && j != i ==> r[j] == regs[j]
    decreases |abs|
  {
    if abs == [] {
      assert regs[i].abastecimentos + abs == regs[i].abastecimentos;
    } else {
      var next := Upsert(regs, placa, nome, whatsapp, abs[0]);
      assert UpsertAll(regs, placa, nome, whatsapp, abs) == UpsertAll(next, placa, nome, whatsapp, abs[1..]);
      UpsertExisting(regs, placa, nome, whatsapp, abs[0], i);
      assert next[i].totalTickets == SumTickets(next[i].abastecimentos) by {
        SumTicketsAppend(regs[i].abastecimentos, [abs[0]]);
        assert [abs[0]][..0] == [];
      }
      UpsertAllExisting(next, placa, nome, whatsapp, abs[1..], i);
      AppendHead(regs[i].abastecimentos, abs);
    }
  }

  /**
   * Repeated submissions of a plate the ledger does not hold: one record is
   * appended, its history is exactly those refuels, its total is their sum,
   * and the earlier records are untouched.
   */
  lemma UpsertAllNew(regs: seq<Registro>, placa: string, nome: string, whatsapp: string,
                     abs: seq<Abastecimento>)
    requires !HasPlaca(regs, placa) && abs != []
    ensures var r := UpsertAll(regs, placa, nome, whatsapp, abs);
      && |r| == |regs| + 1 && r[..|regs|] == regs
      && r[|regs|].placa == placa
      && r[|regs|].abastecimentos == abs
      && r[|regs|].totalTickets == SumTickets(abs)
  {
    var first := Upsert(regs, placa, nome, whatsapp, abs[0]);
    UpsertNew(regs, placa, nome, whatsapp, abs[0]);
    assert forall j :: 0 <= j < |regs| ==> first[j].placa != placa;
    UpsertAllExisting(first, placa, nome, whatsapp, abs[1..], |regs|);
    assert [abs[0]] + abs[1..] == abs;
    var r := UpsertAll(regs, placa, nome, whatsapp, abs);
    assert forall j :: 0 <= j < |regs| ==> r[j] == first[j] == regs[j];
  }

  /**
   * A refuel of 150.00 and then one of 80.00 for the same new plate, typed into
   * the amount field as the digits "15000" and "8000": 3 tickets, then 1 more,
   * for a total of 4 over a history of two refuels.
   */
  lemma TwoRefuelsScenario(d1: string, d2: string)
    ensures DigitsValue("15000") == 15000 && DigitsValue("8000") == 8000
    ensures var c1 := DigitsValue("15000");
      var c2 := DigitsValue("8000");
      var ab1 := Abastecimento(d1, c1, TicketsFor(c1));
      var ab2 := Abastecimento(d2, c2, TicketsFor(c2));
      var r1 := Upsert([], "ABC1234", "Ana", "11999990000", ab1);
      var r2 := Upsert(r1, "ABC1234", "Ana", "11999990000", ab2);
      && ab1.tickets == 3 && ab2.tickets == 1
      && r1[0].totalTickets == 3
      && |r2| == 1 && |r2[0].abastecimentos| == 2 && r2[0].totalTickets == 4
  {
    assert "15000"[..4] == "1500" && "1500"[..3] == "150" && "150"[..2] == "15" && "15"[..1] == "1";
    assert "8000"[..3] == "800" && "800"[..2] == "80" && "80"[..1] == "8";
    var ab1 := Abastecimento(d1, 15000, TicketsFor(15000));
    var ab2 := Abastecimento(d2, 8000, TicketsFor(8000));
    var r1 := Upsert([], "ABC1234", "Ana", "11999990000", ab1);
    UpsertNew([], "ABC1234", "Ana", "11999990000", ab1);
    UpsertExisting(r1, "ABC1234", "Ana", "11999990000", ab2, 0);
  }
}
