/** The client register (pages/Clients.tsx): the list with its name search, and the
    client form with its CNPJ lookup and its save. The list and the save go through the
    data layer; the CNPJ registry, the CPF check digits and number parsing are inputs. */
module ClientsPage {
  import opened Wrappers
  import opened JsonValues
  import opened Strings
  import Database
  import NameSearch
  import LoginPage

  datatype DocKind = PF | PJ

  function KindName(k: DocKind): string
  {
    match k
    case PF => "PF"
    case PJ => "PJ"
  }

  const CnpjInvalid: string := "CNPJ inválido."
  const CnpjNotLocated: string := "CNPJ não localizado."
  const NameRequired: string := "Nome é obrigatório."
  const CpfInvalid: string := "CPF inválido."
  const ConnectionFailed: string := "Falha na conexão com o banco de dados."

  /** `!companyId`, negated: a company id that is there and not empty. */
  predicate Present(companyId: Option<string>)
  {
    companyId.Some? && companyId.value != ""
  }

  /** The list screen. */
  class ClientsScreen {
    var clients: seq<Json>
    var loading: bool
    var searchTerm: string
    var isModalOpen: bool

    constructor()
      ensures clients == [] && loading && searchTerm == "" && !isModalOpen
    {
      clients := [];
      loading := true;
      searchTerm := "";
      isModalOpen := false;
    }

    /** The rows the table renders. */
    function Visible(): (r: seq<Json>)
      reads this
      ensures forall c :: c in r <==> c in clients && NameSearch.NameMatches(c, searchTerm)
    {
      NameSearch.ByName(clients, searchTerm)
    }

    /** `fetchClients`: nothing without a company; otherwise the list becomes what the
        data layer's `getAll` answers (the fetched rows, or the cache when offline or on
        failure) and loading ends. */
    method FetchClients(db: Database.DataLayer, companyId: Option<string>, online: bool, fetched: Outcome<seq<Json>>)
      requires db.Valid()
      modifies this, db
      ensures db.Valid()
      ensures !Present(companyId) ==> unchanged(db) && clients == old(clients) && loading == old(loading)
      ensures Present(companyId) && online && fetched.Returned? ==> clients == fetched.value && !loading
      ensures Present(companyId) && !(online && fetched.Returned?) ==>
        clients == old(db.CachedList(Database.ClientsKey)) && !loading
      ensures searchTerm == old(searchTerm) && isModalOpen == old(isModalOpen)
    {
      if !Present(companyId) {
        return;
      }
      loading := true;
      var rows := db.GetAll(Database.ClientsKey, online, fetched);
      clients := rows;
      loading := false;
    }

    method Search(term: string)
      modifies this
      ensures searchTerm == term && Visible() == NameSearch.ByName(clients, term)
      ensures clients == old(clients) && loading == old(loading) && isModalOpen == old(isModalOpen)
    {
      searchTerm := term;
    }
  }

  /** The form's text fields; the credit limit is typed as text. */
  datatype ClientForm = ClientForm(name: string, cnpjCpf: string, email: string, phone: string, address: string,
                                   creditLimit: string)

  const EmptyClientForm: ClientForm := ClientForm("", "", "", "", "", "0")

  /** What the CNPJ registry answers, as far as the form uses it. */
  datatype CnpjAnswer = CnpjAnswer(razaoSocial: Option<string>, nomeFantasia: Option<string>,
                                   logradouro: Option<string>, numero: string, bairro: string,
                                   municipio: string, uf: string, email: Option<string>, phone: Option<string>)

  /** `${logradouro}, ${numero} - ${bairro}, ${municipio}/${uf}` */
  function AddressLine(d: CnpjAnswer): string
    requires d.logradouro.Some?
  {
    d.logradouro.value + ", " + d.numero + " - " + d.bairro + ", " + d.municipio + "/" + d.uf
  }

  /** The lookup's update of the form: the legal name, else the trade name; the address,
      e-mail and phone only when the registry has them; the document and the credit
      limit untouched. */
  function ApplyLookup(f: ClientForm, d: CnpjAnswer): (r: ClientForm)
    ensures r.name == OrDefault(d.razaoSocial, OrDefault(d.nomeFantasia, ""))
    ensures r.address == if d.logradouro.Some? && d.logradouro.value != "" then AddressLine(d) else f.address
    ensures r.email == OrDefault(d.email, f.email)
    ensures r.phone == if d.phone.Some? && d.phone.value != "" then LoginPage.FormatPhone(d.phone.value) else f.phone
    ensures r.cnpjCpf == f.cnpjCpf && r.creditLimit == f.creditLimit
  {
    f.(name := OrDefault(d.razaoSocial, OrDefault(d.nomeFantasia, "")),
       address := if d.logradouro.Some? && d.logradouro.value != "" then AddressLine(d) else f.address,
       email := OrDefault(d.email, f.email),
       phone := if d.phone.Some? && d.phone.value != "" then LoginPage.FormatPhone(d.phone.value) else f.phone)
  }

  /** `handleSave`'s checks: a name is required; a person's document must pass the CPF
      check (`cpfValid` is `isValidCpf` of the document). The name comes first. */
  function SaveError(f: ClientForm, kind: DocKind, cpfValid: bool): (e: Option<string>)
    ensures e.None? <==> f.name != "" && (kind == PF ==> cpfValid)
    ensures f.name == "" ==> e == Some(NameRequired)
    ensures f.name != "" && kind == PF && !cpfValid ==> e == Some(CpfInvalid)
  {
    if f.name == "" then Some(NameRequired)
    else if kind == PF && !cpfValid then Some(CpfInvalid)
    else None
  }

  /** The record `handleSave` hands to `clients.create`: the typed fields, the selected
      kind as its type, the parsed credit limit (`parsedCredit`, none when the text is not
      a number) or 0, and nothing spent yet. */
  function ClientPayload(f: ClientForm, kind: DocKind, parsedCredit: Option<int>): (r: Record)
    ensures r.Keys == {"name", "cnpj_cpf", "email", "phone", "address", "type", "credit_limit", "total_spent"}
    ensures r["type"] == JStr(KindName(kind)) && r["total_spent"] == JNum(0)
    ensures r["name"] == JStr(f.name) && r["cnpj_cpf"] == JStr(f.cnpjCpf) && r["email"] == JStr(f.email)
    ensures r["phone"] == JStr(f.phone) && r["address"] == JStr(f.address)
    ensures r["credit_limit"] == JNum(parsedCredit.GetOr(0))
  {
    map["name" := JStr(f.name), "cnpj_cpf" := JStr(f.cnpjCpf), "email" := JStr(f.email), "phone" := JStr(f.phone),
        "address" := JStr(f.address), "type" := JStr(KindName(kind)), "credit_limit" := JNum(parsedCredit.GetOr(0)),
        "total_spent" := JNum(0)]
  }

  /** What the data layer keeps of the form's record: the type and the typed fields, the
      credit limit with 0 for a zero or missing one, and the signed-in user; the spent
      total the form sends is dropped. */
  lemma StoredClientRecord(f: ClientForm, kind: DocKind, parsedCredit: Option<int>, userId: string)
    ensures var d := Database.ClientInsertData(ClientPayload(f, kind, parsedCredit), userId);
      && "total_spent" !in d
      && d["type"] == JStr(KindName(kind)) && d["name"] == JStr(f.name) && d["user_id"] == JStr(userId)
      && d["credit_limit"] == JNum(parsedCredit.GetOr(0))
  {
    var p := ClientPayload(f, kind, parsedCredit);
    assert "type" in p && "type" in Database.ClientFields && "name" in p && "name" in Database.ClientFields;
  }

  /** The client form. `closed` and `refreshes` record the `onClose` and `onRefresh`
      callbacks. */
  class ClientModal {
    var kind: DocKind
    var isSearching: bool
    var isSaving: bool
    var error: string
    var form: ClientForm
    var closed: bool
    var refreshes: nat

    constructor()
      ensures kind == PJ && !isSearching && !isSaving && error == "" && form == EmptyClientForm
      ensures !closed && refreshes == 0
    {
      kind := PJ;
      isSearching := false;
      isSaving := false;
      error := "";
      form := EmptyClientForm;
      closed := false;
      refreshes := 0;
    }

    /** `handleLookup`: only for a company; a document that is not 14 digits once
        stripped is refused; otherwise the registry (asked for the bare digits) fills the
        form, and a failure says the CNPJ was not located. */
    method Lookup(fetched: Outcome<CnpjAnswer>) returns (queried: Option<string>)
      modifies this
      ensures kind != PJ ==> queried.None? && form == old(form) && error == old(error)
      ensures kind == PJ && |DigitsOnly(form.cnpjCpf)| != 14 ==>
        queried.None? && form == old(form) && error == CnpjInvalid
      ensures kind == PJ && |DigitsOnly(old(form).cnpjCpf)| == 14 ==> queried == Some(DigitsOnly(old(form).cnpjCpf))
      ensures kind == PJ && |DigitsOnly(old(form).cnpjCpf)| == 14 && fetched.Returned? ==>
        form == ApplyLookup(old(form), fetched.value) && error == ""
      ensures kind == PJ && |DigitsOnly(old(form).cnpjCpf)| == 14 && fetched.Threw? ==>
        form == old(form) && error == CnpjNotLocated
      ensures !isSearching || isSearching == old(isSearching)
      ensures kind == old(kind) && isSaving == old(isSaving) && closed == old(closed) && refreshes == old(refreshes)
    {
      if kind != PJ {
        return None;
      }
      var clean := DigitsOnly(form.cnpjCpf);
      if |clean| != 14 {
        error := CnpjInvalid;
        return None;
      }
      queried := Some(clean);
      isSearching := true;
      error := "";
      match fetched {
        case Returned(data) =>
          form := ApplyLookup(form, data);
        case Threw(_) =>
          error := CnpjNotLocated;
      }
      isSearching := false;
    }

    /** `handleSave` as written: the page hands `clients.create` its company id where the
        data layer expects the `isSyncing` flag, and a company id is always present
        here, so the data layer treats every save as a replay. Offline, nothing is cached
        and nothing is queued, yet the form reports success and closes. */
    method Save(db: Database.DataLayer, online: bool, session: Option<string>, cpfValid: bool,
                parsedCredit: Option<int>, tempSuffix: string, insert: Outcome<Json>, queueId: string, now: int)
      returns (sent: Option<Record>)
      requires db.Valid()
      modifies this, db
      ensures db.Valid()
      ensures db.store == old(db.store) && db.queue == old(db.queue)
      ensures sent.Some? && !online && session.Some? ==> closed && error == ""
      ensures sent.None? <==> SaveError(old(form), kind, cpfValid).Some?
    {
      sent := Submit(db, true, online, session, cpfValid, parsedCredit, tempSuffix, insert, queueId, now);
    }

    /** `handleSave` as evidently intended: a save from the form is not a replay. Offline
        with a session, the record is cached under a temporary id and queued for the
        next drain. */
    method SaveAsIntended(db: Database.DataLayer, online: bool, session: Option<string>, cpfValid: bool,
                          parsedCredit: Option<int>, tempSuffix: string, insert: Outcome<Json>, queueId: string, now: int)
      returns (sent: Option<Record>)
      requires db.Valid()
      modifies this, db
      ensures db.Valid()
      ensures sent.None? <==> SaveError(old(form), kind, cpfValid).Some?
      ensures sent.Some? && session.Some? ==>
        var data := Database.ClientInsertData(sent.value, session.value);
        db.store == old(db.store)[Database.ClientsKey :=
          JArr(old(db.CachedList(Database.ClientsKey)) + [JObj(data["id" := JStr("temp_" + tempSuffix)])])]
      ensures sent.Some? && session.Some? && !online ==>
        db.queue == old(db.queue) + [Database.QueueItem(queueId, "CLIENT",
                                       JObj(Database.ClientInsertData(sent.value, session.value)), now)]
    {
      sent := Submit(db, false, online, session, cpfValid, parsedCredit, tempSuffix, insert, queueId, now);
    }

    /** The save itself, for either value of the flag the data layer receives. The
        checks refuse a form without reaching the data layer; otherwise the record is
        created, and the form closes and the list refreshes unless creation throws, when
        the error's message (or a fixed text) shows. Saving ends cleared. */
    method Submit(db: Database.DataLayer, isSyncing: bool, online: bool, session: Option<string>, cpfValid: bool,
                  parsedCredit: Option<int>, tempSuffix: string, insert: Outcome<Json>, queueId: string, now: int)
      returns (sent: Option<Record>)
      requires db.Valid()
      modifies this, db
      ensures SaveError(old(form), kind, cpfValid).Some? ==>
        && sent.None? && unchanged(db) && error == SaveError(old(form), kind, cpfValid).value
        && isSaving == old(isSaving) && closed == old(closed) && refreshes == old(refreshes)
      ensures SaveError(old(form), kind, cpfValid).None? ==>
        sent == Some(ClientPayload(old(form), kind, parsedCredit)) && !isSaving
      ensures sent.Some? && Database.CreateFailure(online, session, insert).Some? ==>
        && error == OrDefault(Database.CreateFailure(online, session, insert), ConnectionFailed)
        && closed == old(closed) && refreshes == old(refreshes)
      ensures sent.Some? && Database.CreateFailure(online, session, insert).None? ==>
        error == "" && closed && refreshes == old(refreshes) + 1
      ensures sent.Some? && session.None? ==> db.store == old(db.store) && db.queue == old(db.queue)
      ensures sent.Some? && session.Some? ==>
        var data := Database.ClientInsertData(sent.value, session.value);
        && db.store == (if isSyncing then old(db.store)
             else old(db.store)[Database.ClientsKey :=
               JArr(old(db.CachedList(Database.ClientsKey)) + [JObj(data["id" := JStr("temp_" + tempSuffix)])])])
        && db.queue == (if !online && !isSyncing then old(db.queue) + [Database.QueueItem(queueId, "CLIENT", JObj(data), now)]
             else old(db.queue))
      ensures form == old(form) && kind == old(kind) && isSearching == old(isSearching)
      ensures db.Valid()
    {
      var check := SaveError(form, kind, cpfValid);
      if check.Some? {
        error := check.value;
        return None;
      }
      var payload := ClientPayload(form, kind, parsedCredit);
      sent := Some(payload);
      isSaving := true;
      error := "";
      Commit(db, payload, isSyncing, online, session, tempSuffix, insert, queueId, now);
    }

    /** The part of the save after the checks: `clients.create` on the record, then
        the callbacks or the error, and saving cleared. */
    method Commit(db: Database.DataLayer, payload: Record, isSyncing: bool, online: bool, session: Option<string>,
                  tempSuffix: string, insert: Outcome<Json>, queueId: string, now: int)
      requires db.Valid()
      modifies this, db
      ensures !isSaving
      ensures Database.CreateFailure(online, session, insert).Some? ==>
        && error == OrDefault(Database.CreateFailure(online, session, insert), ConnectionFailed)
        && closed == old(closed) && refreshes == old(refreshes)
      ensures Database.CreateFailure(online, session, insert).None? ==>
        error == old(error) && closed && refreshes == old(refreshes) + 1
      ensures session.None? ==> db.store == old(db.store) && db.queue == old(db.queue)
      ensures session.Some? ==>
        var data := Database.ClientInsertData(payload, session.value);
        && db.store == (if isSyncing then old(db.store)
             else old(db.store)[Database.ClientsKey :=
               JArr(old(db.CachedList(Database.ClientsKey)) + [JObj(data["id" := JStr("temp_" + tempSuffix)])])])
        && db.queue == (if !online && !isSyncing then old(db.queue) + [Database.QueueItem(queueId, "CLIENT", JObj(data), now)]
             else old(db.queue))
      ensures form == old(form) && kind == old(kind) && isSearching == old(isSearching)
      ensures db.Valid()
    {
      var r := db.CreateClient(payload, isSyncing, online, session, tempSuffix, insert, queueId, now);
      if r.Threw? {
        error := OrDefault(Some(r.message), ConnectionFailed);
      } else {
        refreshes := refreshes + 1;
        closed := true;
      }
      isSaving := false;
    }
  }
}
