/**
 * The shipment ("chulha") registration page: its state and its handlers.
 *
 * Tab "1" composes a shipment (product card, vendor card, quantity, date, note)
 * and submits it; tab "2" lists the shipments of a date range and edits or
 * deletes them. Requests are appended to `requests`, toasts to `notices`;
 * what the server answers is a parameter of the handler that awaits it.
 */
module ChulhaRegister {
  import opened Common
  import opened Catalog
  import opened Counter
  import opened Api
  import opened Submit

  /** The toasts (`message.*`) the page shows. */
  datatype Notice =
    | ChooseProduct              // error: choose a product
    | ChooseVender               // error: choose a vendor
    | ServerCommError            // error: server communication (submit)
    | Registered(chulhaCd: string)
    | RegisterFailed(error: string)
    | ResetDone                  // info: the form was reset
    | ListFailed                 // error: listing failed
    | Deleted
    | DeleteFailed
    | CommError                  // error: communication (update, delete)
    | Updated
    | UpdateFailed

  /** Everything the page holds, as one value. */
  datatype PageState = PageState(
    activeTab: string,
    product: Picker,
    vender: Picker,
    quantity: Option<Number>,
    form: FormValues,
    historyList: seq<Record>,
    searchRange: Option<seq<Date>>,
    isModalOpen: bool,
    editRecord: Option<Record>,
    editAmt: Option<Number>,
    editBigo: string,
    confirmation: Option<Record>,
    requests: seq<Request>,
    notices: seq<Notice>)

  /**
   * What holds between the fields after every handler: filtered lists only show
   * catalog entries, the counter shows the form's `amt`, the hidden form fields
   * hold the selected codes, the edit modal is only open on a record, and every
   * request went to the page's own partition.
   */
  predicate Consistent(s: PageState, db: string) {
    && ShowsOnlyLoaded(s.product)
    && ShowsOnlyLoaded(s.vender)
    && s.quantity == s.form.amt
    && s.form.jepumCd == s.product.selected
    && s.form.venderCd == s.vender.selected
    && (s.isModalOpen ==> s.editRecord.Some?)
    && (forall i :: 0 <= i < |s.requests| ==> s.requests[i].db == db)
  }

  /** `searchRange` is set and has exactly two bounds. */
  predicate HasTwoBounds(range: Option<seq<Date>>) {
    range.Some? && |range.value| == 2
  }

  /**
   * `fetchHistory` run on state `s` and answered with `outcome`: without two
   * bounds nothing happens; otherwise one list request is issued and the parsed
   * body replaces `historyList` wholesale, or a failure toast is shown.
   */
  function AfterFetchHistory(s: PageState, db: string, outcome: Fetched<seq<Record>>): (r: PageState)
    ensures !HasTwoBounds(s.searchRange) ==> r == s
    ensures HasTwoBounds(s.searchRange) ==>
      && r.requests == s.requests + [Request(db, ListChulha(s.searchRange.value[0], s.searchRange.value[1]))]
      && r.historyList == (if outcome.Received? then outcome.data else s.historyList)
      && r.notices == s.notices + (if outcome.Received? then [] else [ListFailed])
    ensures r.(historyList := s.historyList, requests := s.requests, notices := s.notices) == s
    ensures Consistent(s, db) ==> Consistent(r, db)
  {
    if !HasTwoBounds(s.searchRange) then s
    else
      var issued := s.(requests := s.requests + [Request(db, ListChulha(s.searchRange.value[0], s.searchRange.value[1]))]);
      match outcome
      case Received(data) => issued.(historyList := data)
      case FetchFailed => issued.(notices := issued.notices + [ListFailed])
  }

  /**
   * `handleReset` on state `s`: the form goes back to a one-unit draft dated
   * `today`, both selections and search terms are cleared, both card lists show
   * the full catalog again, and an info toast is shown.
   */
  function AfterReset(s: PageState, today: Date): (r: PageState)
    ensures r.form == FormValues(Some(today), None, None, Some(1.0), None) && r.quantity == Some(1.0)
    ensures r.product == Cleared(s.product) && r.vender == Cleared(s.vender)
    ensures r.notices == s.notices + [ResetDone]
    ensures r.(form := s.form, quantity := s.quantity, product := s.product, vender := s.vender, notices := s.notices) == s
  {
    s.(form := FormValues(Some(today), None, None, Some(1.0), None),
       quantity := Some(1.0),
       product := Cleared(s.product),
       vender := Cleared(s.vender),
       notices := s.notices + [ResetDone])
  }

  /** A picker after reset: nothing selected, no search text, every loaded entry shown. */
  function Cleared(p: Picker): (r: Picker)
    ensures r.selected == None && r.selectedName == "" && r.searchTerm == ""
    ensures r.list == p.list && r.filtered == p.list
    ensures ShowsOnlyLoaded(r)
  {
    Picker(p.list, p.list, None, "", "")
  }

  /** Reset keeps the page consistent. */
  lemma ResetConsistent(s: PageState, db: string, today: Date)
    requires Consistent(s, db)
    ensures Consistent(AfterReset(s, today), db)
  {
  }

  class ChulhaPage {
    /** The backend partition (`v_db`) forwarded on every request. */
    const vDb: string

    var activeTab: string

    /** `productList`, `filteredProducts`, `selectedProduct`, `selectedProductName`, `productSearchTerm`. */
    var product: Picker
    /** `venderList`, `filteredVenders`, `selectedVender`, `selectedVenderName`, `venderSearchTerm`. */
    var vender: Picker

    var quantity: Option<Number>
    /** The antd form store: `chulha_dt`, `jepum_cd`, `vender_cd`, `amt`, `bigo`. */
    var form: FormValues

    var historyList: seq<Record>
    var searchRange: Option<seq<Date>>

    var isModalOpen: bool
    var editRecord: Option<Record>
    var editAmt: Option<Number>
    var editBigo: string

    /** The delete confirmation dialog that is open, and the record it asks about. */
    var confirmation: Option<Record>

    /** Requests issued so far, oldest first. */
    var requests: seq<Request>
    /** Toasts shown so far, oldest first. */
    var notices: seq<Notice>

    function State(): PageState
      reads this
    {
      PageState(activeTab, product, vender, quantity, form, historyList, searchRange, isModalOpen, editRecord,
                editAmt, editBigo, confirmation, requests, notices)
    }

    predicate Valid()
      reads this
    {
      Consistent(State(), vDb)
    }

    /**
     * The page as first rendered: tab "1", empty catalogs and history, a
     * one-unit draft dated `today`, and the range of the current month.
     */
    constructor (db: string, today: Date, monthStart: Date, monthEnd: Date)
      ensures Valid() && vDb == db
      ensures State() == PageState(
        "1", Picker([], [], None, "", ""), Picker([], [], None, "", ""),
        Some(1.0), FormValues(Some(today), None, None, Some(1.0), None),
        [], Some([monthStart, monthEnd]), false, None, Some(0.0), "", None, [], [])
    {
      vDb := db;
      activeTab := "1";
      product := Picker([], [], None, "", "");
      vender := Picker([], [], None, "", "");
      quantity := Some(1.0);
      form := FormValues(Some(today), None, None, Some(1.0), None);
      historyList := [];
      searchRange := Some([monthStart, monthEnd]);
      isModalOpen, editRecord, editAmt, editBigo := false, None, Some(0.0), "";
      confirmation := None;
      requests, notices := [], [];
    }

    /**
     * The mount effect: both catalogs are requested; each received list becomes
     * both the full and the filtered list, a failed load changes nothing.
     */
    method LoadCatalogs(products: Fetched<seq<Entry>>, venders: Fetched<seq<Entry>>)
      requires Valid()
      modifies this
      ensures Valid()
      ensures requests == old(requests) + [Request(vDb, LoadProducts(CatalogCategory)), Request(vDb, LoadVenders(CatalogCategory))]
      ensures product == if products.Received? then old(product).(list := products.data, filtered := products.data) else old(product)
      ensures vender == if venders.Received? then old(vender).(list := venders.data, filtered := venders.data) else old(vender)
      ensures State() == old(State()).(requests := requests, product := product, vender := vender)
    {
      requests := requests + [Request(vDb, LoadProducts(CatalogCategory)), Request(vDb, LoadVenders(CatalogCategory))];
      if products.Received? {
        product := product.(list := products.data, filtered := products.data);
      }
      if venders.Received? {
        vender := vender.(list := venders.data, filtered := venders.data);
      }
    }

    /** `fetchHistory` (also the reload button): see `AfterFetchHistory`. */
    method FetchHistory(outcome: Fetched<seq<Record>>)
      requires Valid()
      modifies this
      ensures Valid()
      ensures State() == AfterFetchHistory(old(State()), vDb, outcome)
      ensures !HasTwoBounds(searchRange) ==> requests == old(requests)
    {
      if searchRange.None? || |searchRange.value| != 2 {
        return;
      }
      var fromDt, toDt := searchRange.value[0], searchRange.value[1];
      requests := requests + [Request(vDb, ListChulha(fromDt, toDt))];
      match outcome {
        case Received(data) => historyList := data;
        case FetchFailed => notices := notices + [ListFailed];
      }
    }

    /**
     * The tabs' `onChange` and the effect on `[activeTab, searchRange]`: a
     * change of tab to "2" reloads the history; choosing the current tab again
     * changes nothing.
     */
    method SetActiveTab(tab: string, outcome: Fetched<seq<Record>>)
      requires Valid()
      modifies this
      ensures Valid()
      ensures activeTab == tab
      ensures State() ==
        var switched := old(State()).(activeTab := tab);
        if tab != old(activeTab) && tab == "2" then AfterFetchHistory(switched, vDb, outcome) else switched
    {
      if tab != activeTab {
        activeTab := tab;
        if tab == "2" {
          FetchHistory(outcome);
        }
      }
    }

    /**
     * The range picker's `onChange` and the same effect: the new range is
     * stored, and while tab "2" is shown the history is reloaded for it.
     */
    method SetSearchRange(dates: Option<seq<Date>>, outcome: Fetched<seq<Record>>)
      requires Valid()
      modifies this
      ensures Valid()
      ensures searchRange == dates
      ensures State() ==
        var stored := old(State()).(searchRange := dates);
        if old(activeTab) == "2" then AfterFetchHistory(stored, vDb, outcome) else stored
    {
      searchRange := dates;
      if activeTab == "2" {
        FetchHistory(outcome);
      }
    }

    /**
     * `handleProductSearch`: the cards shown become the full product list
     * filtered by the keyword; the selection is untouched.
     */
    method HandleProductSearch(keyword: string)
      requires Valid()
      modifies this
      ensures Valid()
      ensures product.filtered == Filter(product.list, keyword)
      ensures State() == old(State()).(product := old(product).(searchTerm := keyword, filtered := Filter(old(product).list, keyword)))
    {
      product := product.(searchTerm := keyword, filtered := Filter(product.list, keyword));
    }

    /** `handleVenderSearch`: the same search over the vendor list. */
    method HandleVenderSearch(keyword: string)
      requires Valid()
      modifies this
      ensures Valid()
      ensures vender.filtered == Filter(vender.list, keyword)
      ensures State() == old(State()).(vender := old(vender).(searchTerm := keyword, filtered := Filter(old(vender).list, keyword)))
    {
      vender := vender.(searchTerm := keyword, filtered := Filter(vender.list, keyword));
    }

    /**
     * `handleProductSelectCard`: code and name come from the one entry; the code
     * also goes into the form's `jepum_cd`; the cards shown do not change.
     */
    method HandleProductSelectCard(p: Entry)
      requires Valid()
      modifies this
      ensures Valid()
      ensures product.selected == form.jepumCd == Some(p.code) && product.selectedName == p.name
      ensures product.filtered == old(product.filtered)
      ensures State() == old(State()).(
        product := old(product).(selected := Some(p.code), selectedName := p.name),
        form := old(form).(jepumCd := Some(p.code)))
    {
      product := product.(selected := Some(p.code), selectedName := p.name);
      form := form.(jepumCd := Some(p.code));
    }

    /** `handleVenderSelectCard`: the same for vendors and `vender_cd`. */
    method HandleVenderSelectCard(v: Entry)
      requires Valid()
      modifies this
      ensures Valid()
      ensures vender.selected == form.venderCd == Some(v.code) && vender.selectedName == v.name
      ensures vender.filtered == old(vender.filtered)
      ensures State() == old(State()).(
        vender := old(vender).(selected := Some(v.code), selectedName := v.name),
        form := old(form).(venderCd := Some(v.code)))
    {
      vender := vender.(selected := Some(v.code), selectedName := v.name);
      form := form.(venderCd := Some(v.code));
    }

    /** `handlePlus`: counter and form both become `(amt || 0) + 1`. */
    method HandlePlus()
      requires Valid()
      modifies this
      ensures Valid()
      ensures quantity == form.amt == Some(PlusValue(old(form.amt)))
      ensures WholeAtLeastOne(old(form.amt)) ==> WholeAtLeastOne(form.amt)
      ensures Positive(old(form.amt)) ==> Positive(form.amt)
      ensures State() == old(State()).(quantity := quantity, form := old(form).(amt := quantity))
    {
      if WholeAtLeastOne(form.amt) {
        StepKeepsFloor(form.amt, Plus);
      }
      var newVal := OrZero(form.amt) + 1.0;
      quantity := Some(newVal);
      form := form.(amt := Some(newVal));
    }

    /**
     * `handleMinus`: one less above 1, a no-op at or below 1. The floor holds
     * for whole amounts only: from a typed 1.5 the result is 0.5.
     */
    method HandleMinus()
      requires Valid()
      modifies this
      ensures Valid()
      ensures quantity == form.amt == MinusValue(old(form.amt))
      ensures OrZero(old(form.amt)) <= 1.0 ==> State() == old(State())
      ensures WholeAtLeastOne(old(form.amt)) ==> WholeAtLeastOne(form.amt)
      ensures Positive(old(form.amt)) ==> Positive(form.amt)
      ensures 1.0 < OrZero(old(form.amt)) < 2.0 ==> form.amt.Some? && form.amt.value < 1.0
      ensures State() == old(State()).(quantity := quantity, form := old(form).(amt := quantity))
    {
      if WholeAtLeastOne(form.amt) {
        StepKeepsFloor(form.amt, Minus);
      }
      var currentVal := OrZero(form.amt);
      if currentVal > 1.0 {
        var newVal := currentVal - 1.0;
        quantity := Some(newVal);
        form := form.(amt := Some(newVal));
      }
    }

    /**
     * The quantity input's `onChange`: the typed value (absent when cleared)
     * goes into the counter and the form unclamped.
     */
    method EnterQuantity(val: Option<Number>)
      requires Valid()
      modifies this
      ensures Valid()
      ensures quantity == form.amt == val
      ensures State() == old(State()).(quantity := val, form := old(form).(amt := val))
    {
      quantity := val;
      form := form.(amt := val);
    }

    /** The date picker bound to `chulha_dt` (absent when cleared). */
    method SetShipDate(d: Option<Date>)
      requires Valid()
      modifies this
      ensures Valid()
      ensures State() == old(State()).(form := old(form).(chulhaDt := d))
    {
      form := form.(chulhaDt := d);
    }

    /** The note field bound to `bigo`. */
    method SetNote(text: Option<string>)
      requires Valid()
      modifies this
      ensures Valid()
      ensures State() == old(State()).(form := old(form).(bigo := text))
    {
      form := form.(bigo := text);
    }

    /** `handleReset`: see `AfterReset`. */
    method HandleReset(today: Date)
      requires Valid()
      modifies this
      ensures Valid()
      ensures State() == AfterReset(old(State()), today)
    {
      ResetConsistent(State(), vDb, today);
      form, quantity := FormValues(Some(today), None, None, Some(1.0), None), Some(1.0);
      product, vender := Cleared(product), Cleared(vender);
      notices := notices + [ResetDone];
    }

    /**
     * `onFinish`: without a product, then without a vendor, only an error toast
     * and no request. Otherwise one insert is sent; on success the page is
     * reset, on a rejection or an exception only an error toast is added.
     */
    method OnFinish(today: Date, reply: InsertReply)
      requires Valid()
      modifies this
      ensures Valid()
      ensures PrepareInsert(old(form)).Failure? ==> requests == old(requests)
      ensures PrepareInsert(old(form)).Success? ==>
        requests == old(requests) + [Request(vDb, InsertChulha(PrepareInsert(old(form)).value))]
      ensures State() ==
        match PrepareInsert(old(form))
        case Failure(MissingProduct) => old(State()).(notices := old(notices) + [ChooseProduct])
        case Failure(MissingVender) => old(State()).(notices := old(notices) + [ChooseVender])
        case Failure(MissingDate) => old(State()).(notices := old(notices) + [ServerCommError])
        case Success(payload) =>
          var sent := old(State()).(requests := old(requests) + [Request(vDb, InsertChulha(payload))]);
          match reply
          case Created(cd) => AfterReset(sent.(notices := sent.notices + [Registered(cd)]), today)
          case Rejected(e) => sent.(notices := sent.notices + [RegisterFailed(e)])
          case InsertThrown => sent.(notices := sent.notices + [ServerCommError])
    {
      var values := form;
      if !TruthyString(values.jepumCd) {
        notices := notices + [ChooseProduct];
        return;
      }
      if !TruthyString(values.venderCd) {
        notices := notices + [ChooseVender];
        return;
      }
      if values.chulhaDt.None? {
        notices := notices + [ServerCommError];
        return;
      }
      var payload := InsertPayload(values.chulhaDt.value, values.jepumCd.value, values.venderCd.value,
                                   values.amt, OrEmpty(values.bigo));
      requests := requests + [Request(vDb, InsertChulha(payload))];
      match reply {
        case Created(cd) =>
          notices := notices + [Registered(cd)];
          HandleReset(today);
        case Rejected(e) =>
          notices := notices + [RegisterFailed(e)];
        case InsertThrown =>
          notices := notices + [ServerCommError];
      }
    }

    /**
     * `handleDelete` as intended: it only opens the confirmation dialog for the
     * record; no request is issued here.
     * The source calls `confirm(...)`, which is never imported (only `Modal`
     * is); see `HandleDeleteAsWritten`.
     */
    method HandleDelete(record: Record)
      requires Valid()
      modifies this
      ensures Valid()
      ensures requests == old(requests)
      ensures State() == old(State()).(confirmation := Some(record))
    {
      confirmation := Some(record);
    }

    /**
     * `handleDelete` as written: what `confirm` resolves to is not antd's
     * `Modal.confirm`, so its `onOk` is never run, whatever the operator answers;
     * no DELETE is issued and the history is not reloaded.
     */
    method HandleDeleteAsWritten(record: Record)
      requires Valid()
      ensures State() == old(State())
    {
    }

    /** The dialog's cancel button: the dialog closes, nothing is sent. */
    method CancelDelete()
      requires Valid()
      modifies this
      ensures Valid()
      ensures State() == old(State()).(confirmation := None)
    {
      confirmation := None;
    }

    /**
     * The dialog's `onOk`: exactly one DELETE for the record, then the dialog
     * closes; only a successful delete is followed by a history reload.
     */
    method ConfirmDelete(reply: Reply, outcome: Fetched<seq<Record>>)
      requires Valid() && confirmation.Some?
      modifies this
      ensures Valid()
      ensures confirmation == None
      ensures reply != Ok ==> requests == old(requests) + [Request(vDb, DeleteChulha(old(confirmation).value.chulhaCd))]
      ensures State() ==
        var sent := old(State()).(confirmation := None,
                                  requests := old(requests) + [Request(vDb, DeleteChulha(old(confirmation).value.chulhaCd))]);
        match reply
        case Ok => AfterFetchHistory(sent.(notices := sent.notices + [Deleted]), vDb, outcome)
        case NotOk => sent.(notices := sent.notices + [DeleteFailed])
        case Thrown => sent.(notices := sent.notices + [CommError])
    {
      var record := confirmation.value;
      confirmation := None;
      requests := requests + [Request(vDb, DeleteChulha(record.chulhaCd))];
      match reply {
        case Ok =>
          notices := notices + [Deleted];
          FetchHistory(outcome);
        case NotOk =>
          notices := notices + [DeleteFailed];
        case Thrown =>
          notices := notices + [CommError];
      }
    }

    /** `openEditModal`: the record's quantity and note (absent as "") go into the edit state. */
    method OpenEditModal(record: Record)
      requires Valid()
      modifies this
      ensures Valid()
      ensures isModalOpen && editRecord == Some(record)
      ensures editAmt == Some(record.amt) && editBigo == OrEmpty(record.bigo)
      ensures State() == old(State()).(
        editRecord := Some(record), editAmt := Some(record.amt), editBigo := OrEmpty(record.bigo), isModalOpen := true)
    {
      editRecord := Some(record);
      editAmt := Some(record.amt);
      editBigo := OrEmpty(record.bigo);
      isModalOpen := true;
    }

    /** The modal's quantity input (absent when cleared). */
    method SetEditAmt(val: Option<Number>)
      requires Valid()
      modifies this
      ensures Valid()
      ensures State() == old(State()).(editAmt := val)
    {
      editAmt := val;
    }

    /** The modal's note input. */
    method SetEditBigo(text: string)
      requires Valid()
      modifies this
      ensures Valid()
      ensures State() == old(State()).(editBigo := text)
    {
      editBigo := text;
    }

    /** The modal's cancel button. */
    method CloseEditModal()
      requires Valid()
      modifies this
      ensures Valid()
      ensures State() == old(State()).(isModalOpen := false)
    {
      isModalOpen := false;
    }

    /**
     * `handleUpdate`: one PUT with the record's code and the edited quantity and
     * note. On success the modal closes and the history is reloaded; otherwise
     * the modal stays as it is and nothing is reloaded. Without a record the
     * payload cannot be built and only an error toast is shown.
     */
    method HandleUpdate(reply: Reply, outcome: Fetched<seq<Record>>)
      requires Valid()
      modifies this
      ensures Valid()
      ensures old(editRecord).None? ==> requests == old(requests)
      ensures old(editRecord).Some? && reply != Ok ==>
        requests == old(requests) + [Request(vDb, UpdateChulha(UpdatePayload(old(editRecord).value.chulhaCd, old(editAmt), old(editBigo))))]
        && isModalOpen == old(isModalOpen) && historyList == old(historyList)
      ensures State() ==
        if old(editRecord).None? then old(State()).(notices := old(notices) + [CommError])
        else
          var sent := old(State()).(requests := old(requests) +
            [Request(vDb, UpdateChulha(UpdatePayload(old(editRecord).value.chulhaCd, old(editAmt), old(editBigo))))]);
          match reply
          case Ok => AfterFetchHistory(sent.(notices := sent.notices + [Updated], isModalOpen := false), vDb, outcome)
          case NotOk => sent.(notices := sent.notices + [UpdateFailed])
          case Thrown => sent.(notices := sent.notices + [CommError])
    {
      if editRecord.None? {
        notices := notices + [CommError];
        return;
      }
      var body := UpdatePayload(editRecord.value.chulhaCd, editAmt, editBigo);
      requests := requests + [Request(vDb, UpdateChulha(body))];
      match reply {
        case Ok =>
          notices := notices + [Updated];
          isModalOpen := false;
          FetchHistory(outcome);
        case NotOk =>
          notices := notices + [UpdateFailed];
        case Thrown =>
          notices := notices + [CommError];
      }
    }
  }
}
