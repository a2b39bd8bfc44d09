/**
 * Client walks through the shipment page, using only the handlers' contracts:
 * what an operator can rely on when driving the page.
 */
module Scenarios {
  import opened Common
  import opened Catalog
  import opened Api
  import opened Submit
  import opened ChulhaRegister

  /** Submitting with no product chosen shows the product error and sends nothing. */
  method SubmitWithoutProduct(today: Date, reply: InsertReply) {
    var page := new ChulhaPage("db", today, "20250101", "20250131");
    page.HandlePlus();
    page.HandlePlus();
    page.OnFinish(today, reply);
    assert page.requests == [];
    assert page.notices == [ChooseProduct];
    assert page.form.amt == page.quantity == Some(3.0);
  }

  /** A product but no vendor: the vendor error, nothing sent, the draft kept. */
  method SubmitWithoutVender(today: Date, reply: InsertReply) {
    var page := new ChulhaPage("db", today, "20250101", "20250131");
    page.HandleProductSelectCard(Entry("P001", "Bolt"));
    page.OnFinish(today, reply);
    assert page.requests == [];
    assert page.notices == [ChooseVender];
    assert page.product.selected == Some("P001");
  }

  /** Loaded catalogs are shown whole; a search shows the matching part of the full list. */
  method SearchCatalog(keyword: string) {
    var page := new ChulhaPage("db", "20250115", "20250101", "20250131");
    var products := [Entry("P001", "Bolt"), Entry("P002", "Nut")];
    page.LoadCatalogs(Received(products), FetchFailed);
    assert page.product.filtered == products && page.vender.list == [];
    page.HandleProductSearch(keyword);
    page.HandleProductSelectCard(Entry("P001", "Bolt"));
    FilterIdempotent(products, keyword);
    assert page.product.filtered == Filter(page.product.filtered, keyword);
    page.HandleProductSearch("");
    FilterEmptyKeyword(products);
    assert page.product.filtered == products;
  }

  /**
   * Compose five units of P001 for vendor V01 and submit: one insert with that
   * payload, and on success the draft is reset.
   */
  method RegisterFiveUnits() {
    var today := "20250115";
    var page := new ChulhaPage("db", today, "20250101", "20250131");
    page.HandleProductSelectCard(Entry("P001", "Bolt"));
    page.HandleVenderSelectCard(Entry("V01", "Acme"));
    page.HandlePlus();
    page.HandlePlus();
    page.HandlePlus();
    page.HandlePlus();
    assert page.form.amt == Some(5.0);
    page.OnFinish(today, Created("S100"));
    assert page.requests == [Request("db", InsertChulha(InsertPayload(today, "P001", "V01", Some(5.0), "")))];
    assert page.form.amt == page.quantity == Some(1.0) && page.form.jepumCd == None;
    assert page.notices == [Registered("S100"), ResetDone];
  }

  /** Switching to the list tab loads the month's rows; switching to it again does not reload. */
  method ListTab(rows: seq<Record>, later: Fetched<seq<Record>>) {
    var page := new ChulhaPage("db", "20250115", "20250101", "20250131");
    page.SetActiveTab("2", Received(rows));
    assert page.historyList == rows;
    assert page.requests == [Request("db", ListChulha("20250101", "20250131"))];
    page.SetActiveTab("2", later);
    assert page.historyList == rows && |page.requests| == 1;
  }

  /**
   * Deleting asks first: opening and cancelling the dialog sends nothing;
   * confirming sends one DELETE and, on success, reloads the list.
   */
  method DeleteNeedsConfirmation(row: Record, remaining: seq<Record>) {
    var page := new ChulhaPage("db", "20250115", "20250101", "20250131");
    page.SetActiveTab("2", Received([row]));
    var listed := page.requests;
    page.HandleDelete(row);
    page.CancelDelete();
    assert page.requests == listed;
    page.HandleDelete(row);
    assert page.requests == listed;
    page.ConfirmDelete(Ok, Received(remaining));
    assert page.requests == listed + [Request("db", DeleteChulha(row.chulhaCd)), Request("db", ListChulha("20250101", "20250131"))];
    assert page.historyList == remaining;
  }

  /** As written, the delete button never reaches the server. */
  method DeleteAsWrittenSendsNothing(row: Record) {
    var page := new ChulhaPage("db", "20250115", "20250101", "20250131");
    page.SetActiveTab("2", Received([row]));
    var listed := page.requests;
    page.HandleDeleteAsWritten(row);
    assert page.requests == listed;
    assert page.historyList == [row];
  }

  /** A failed update keeps the modal open and does not reload. */
  method FailedUpdateKeepsModal(row: Record) {
    var page := new ChulhaPage("db", "20250115", "20250101", "20250131");
    page.SetActiveTab("2", Received([row]));
    page.OpenEditModal(row);
    page.SetEditAmt(Some(7.0));
    var sent := page.requests;
    page.HandleUpdate(NotOk, Received([]));
    assert page.isModalOpen && page.historyList == [row];
    assert page.requests == sent + [Request("db", UpdateChulha(UpdatePayload(row.chulhaCd, Some(7.0), OrEmpty(row.bigo))))];
  }
}
