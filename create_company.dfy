/** The first-company form (components/CreateCompanyModal.tsx). Creating a company is a
    fixed sequence of awaited steps: create the company and its membership, write the
    company settings, write the default commercial settings, hand the new company to
    the session, and report success. Any failing step stops the sequence. The settings
    writes go through the data layer and the hand-over through the session provider;
    the company-creation call and the CNPJ registry are oracles. */
module CompanyCreation {
  import opened Wrappers
  import opened JsonValues
  import opened Strings
  import Database
  import Auth

  datatype DocType = CNPJ | CPF

  const NameRequired: string := "O nome da empresa é obrigatório."
  const CnpjLength: string := "CNPJ deve ter 14 dígitos."
  const CnpjNotFound: string := "Não foi possível localizar este CNPJ."
  const CreateFailed: string := "Erro ao criar empresa. Tente novamente."
  const OwnerRole: string := "OWNER"

  /** One step of the creation sequence, as it is attempted. */
  datatype Step =
    | CreateCompany(name: string)
    | WriteCompanySettings(companyId: string, name: string, document: string)  // writes CompanyPatch of these
    | WriteCommercialSettings(companyId: string)                              // writes CommercialPatch of it
    | HandOver(companyId: string, name: string, role: string)
    | Finished

  /** The company settings written for a new company: both names are the typed name,
      the document is trimmed. */
  function CompanyPatch(companyId: string, name: string, document: string): (p: Record)
    ensures p.Keys == {"company_id", "trade_name", "legal_name", "document"}
    ensures p["company_id"] == JStr(companyId) && p["document"] == JStr(Trim(document))
    ensures p["trade_name"] == JStr(name) && p["legal_name"] == JStr(name)
  {
    assert "company_id"[0] != "trade_name"[0] && "company_id"[0] != "legal_name"[0] && "company_id"[0] != "document"[0];
    assert "trade_name"[0] != "legal_name"[0] && "trade_name"[0] != "document"[0] && "legal_name"[0] != "document"[0];
    map["company_id" := JStr(companyId), "trade_name" := JStr(name), "legal_name" := JStr(name),
        "document" := JStr(Trim(document))]
  }

  /** The default commercial settings: no minimum order, orders approved automatically,
      codes `PED` followed by six digits. */
  function CommercialPatch(companyId: string): (p: Record)
    ensures p.Keys == {"company_id", "minimum_order_value", "auto_approve_orders", "order_code_prefix", "order_code_padding"}
    ensures p["company_id"] == JStr(companyId) && p["order_code_prefix"] == JStr("PED")
    ensures p["order_code_padding"] == JNum(6) && p["minimum_order_value"] == JNum(0)
    ensures p["auto_approve_orders"] == JBool(true)
  {
    map["company_id" := JStr(companyId), "minimum_order_value" := JNum(0), "auto_approve_orders" := JBool(true),
        "order_code_prefix" := JStr("PED"), "order_code_padding" := JNum(6)]
  }

  /** The whole sequence, in order, for a company created under `companyId`. */
  function FullRun(companyId: string, name: string, document: string): seq<Step>
  {
    [CreateCompany(name), WriteCompanySettings(companyId, name, document),
     WriteCommercialSettings(companyId), HandOver(companyId, name, OwnerRole), Finished]
  }

  /** Whether a settings write through the data layer throws: without a session always,
      online when the backend's upsert throws, offline never. */
  predicate WriteFails(online: bool, session: Option<string>, upsert: Outcome<Record>)
  {
    session.None? || (online && upsert.Threw?)
  }

  /** The message of a failed settings write. */
  function WriteError(session: Option<string>, upsert: Outcome<Record>): string
  {
    if session.None? then "Não autenticado" else if upsert.Threw? then upsert.message else ""
  }

  /** One settings write through the data layer, reduced to whether it threw and with
      what message. */
  method WriteSettings(db: Database.DataLayer, key: string, patch: Record, online: bool, session: Option<string>,
                       upsert: Outcome<Record>) returns (failure: Option<string>)
    requires db.Valid() && Database.IsSettingsKey(key)
    modifies db
    ensures db.Valid() && db.queue == old(db.queue)
    ensures failure.Some? <==> WriteFails(online, session, upsert)
    ensures failure.Some? ==> failure.value == WriteError(session, upsert) && db.store == old(db.store)
  {
    var r := db.UpdateSettings(key, patch, online, session, upsert);
    failure := if r.Threw? then Some(r.message) else None;
  }

  /** The settings write a step stands for: the company settings or the default
      commercial settings, each under its own key. */
  method WriteStep(db: Database.DataLayer, step: Step, online: bool, session: Option<string>,
                   upsert: Outcome<Record>) returns (failure: Option<string>)
    requires db.Valid() && (step.WriteCompanySettings? || step.WriteCommercialSettings?)
    modifies db
    ensures db.Valid() && db.queue == old(db.queue)
    ensures failure.Some? <==> WriteFails(online, session, upsert)
    ensures failure.Some? ==> failure.value == WriteError(session, upsert) && db.store == old(db.store)
  {
    if step.WriteCompanySettings? {
      failure := WriteSettings(db, Database.CompanyKey, CompanyPatch(step.companyId, step.name, step.document),
                               online, session, upsert);
    } else {
      failure := WriteSettings(db, Database.CommercialKey, CommercialPatch(step.companyId), online, session, upsert);
    }
  }

  class CompanyForm {
    var docType: DocType
    var document: string
    var name: string
    var loading: bool
    var searching: bool
    var error: string
    /** The creation steps attempted so far, in order. */
    var steps: seq<Step>

    constructor()
      ensures docType == CNPJ && document == "" && name == "" && !loading && !searching && error == "" && steps == []
    {
      docType := CNPJ;
      document := "";
      name := "";
      loading := false;
      searching := false;
      error := "";
      steps := [];
    }

    /** The submit button is enabled exactly when `handleCreate` would go ahead. */
    predicate CanSubmit()
      reads this
    {
      !loading && Trim(name) != ""
    }

    /** `handleLookup`: only for a CNPJ; one that is not 14 digits once stripped is refused;
        otherwise the registry (asked for the bare digits) answers with the legal and the
        trade name, and the form takes the first one given. */
    method Lookup(fetched: Outcome<(Option<string>, Option<string>)>) returns (queried: Option<string>)
      modifies this
      ensures docType != CNPJ ==> queried.None? && name == old(name) && error == old(error)
      ensures docType == CNPJ && |DigitsOnly(document)| != 14 ==>
        queried.None? && name == old(name) && error == CnpjLength
      ensures docType == CNPJ && |DigitsOnly(document)| == 14 ==> queried == Some(DigitsOnly(document))
      ensures docType == CNPJ && |DigitsOnly(document)| == 14 && fetched.Returned? ==>
        name == OrDefault(fetched.value.0, OrDefault(fetched.value.1, "")) && error == ""
      ensures docType == CNPJ && |DigitsOnly(document)| == 14 && fetched.Threw? ==>
        name == old(name) && error == CnpjNotFound
      ensures !searching || searching == old(searching)
      ensures docType == old(docType) && document == old(document) && loading == old(loading) && steps == old(steps)
    {
      if docType != CNPJ {
        return None;
      }
      var clean := DigitsOnly(document);
      if |clean| != 14 {
        error := CnpjLength;
        return None;
      }
      queried := Some(clean);
      searching := true;
      error := "";
      match fetched {
        case Returned(names) =>
          name := OrDefault(names.0, OrDefault(names.1, ""));
        case Threw(_) =>
          error := CnpjNotFound;
      }
      searching := false;
    }

    /** `handleCreate`. Nothing happens while a creation is running, and a name that is
        blank once trimmed is refused; neither reaches the backend. Otherwise the steps
        run in order with the trimmed name; the first failing one shows its message (or
        a fixed text) and ends loading, and the session is handed the company only when
        every write succeeded, as its owner. After success loading stays on while the
        page moves on. */
    method Create(db: Database.DataLayer, auth: Auth.AuthSession, online: bool, session: Option<string>,
                  created: Outcome<string>, companyUpsert: Outcome<Record>, commercialUpsert: Outcome<Record>)
      requires db.Valid()
      modifies this, db, auth
      ensures db.queue == old(db.queue)
      ensures docType == old(docType) && document == old(document) && name == old(name)
      ensures old(loading) || Trim(old(name)) == "" ==> steps == old(steps) && loading == old(loading)
      ensures old(loading) || Trim(old(name)) == "" ==> unchanged(db) && unchanged(auth)
      ensures old(loading) ==> error == old(error)
      ensures !old(loading) && Trim(old(name)) == "" ==> error == NameRequired
      ensures !old(loading) && Trim(old(name)) != "" && created.Threw? ==>
        && steps == old(steps) + [CreateCompany(Trim(old(name)))]
        && !loading && error == OrDefault(Some(created.message), CreateFailed)
        && db.store == old(db.store) && auth.State() == old(auth.State())
      ensures !old(loading) && Trim(old(name)) != "" && created.Returned? && WriteFails(online, session, companyUpsert) ==>
        && steps == old(steps) + FullRun(created.value, Trim(old(name)), old(document))[..2]
        && !loading && error == OrDefault(Some(WriteError(session, companyUpsert)), CreateFailed)
        && auth.State() == old(auth.State())
      ensures !old(loading) && Trim(old(name)) != "" && created.Returned? && !WriteFails(online, session, companyUpsert)
              && WriteFails(online, session, commercialUpsert) ==>
        && steps == old(steps) + FullRun(created.value, Trim(old(name)), old(document))[..3]
        && !loading && error == OrDefault(Some(WriteError(session, commercialUpsert)), CreateFailed)
        && auth.State() == old(auth.State())
      ensures !old(loading) && Trim(old(name)) != "" && created.Returned? && !WriteFails(online, session, companyUpsert)
              && !WriteFails(online, session, commercialUpsert) ==>
        && steps == old(steps) + FullRun(created.value, Trim(old(name)), old(document))
        && loading && error == ""
        && auth.State() == Auth.SetAuthenticatedCompanyStep(old(auth.State()), created.value, Trim(old(name)), OwnerRole)
      ensures db.Valid()
    {
      if loading {
        return;
      }
      var trimmed := Trim(name);
      if trimmed == "" {
        error := NameRequired;
        return;
      }
      Launch(db, auth, trimmed, online, session, created, companyUpsert, commercialUpsert);
    }

    /** The submission once the name is accepted: loading on, the company created, then
        the remaining steps. */
    method Launch(db: Database.DataLayer, auth: Auth.AuthSession, trimmed: string, online: bool,
                  session: Option<string>, created: Outcome<string>, companyUpsert: Outcome<Record>,
                  commercialUpsert: Outcome<Record>)
      requires db.Valid()
      modifies this, db, auth
      ensures db.Valid() && db.queue == old(db.queue)
      ensures docType == old(docType) && document == old(document) && name == old(name)
      ensures created.Threw? ==>
        && steps == old(steps) + [CreateCompany(trimmed)]
        && !loading && error == OrDefault(Some(created.message), CreateFailed)
        && db.store == old(db.store) && auth.State() == old(auth.State())
      ensures created.Returned? && WriteFails(online, session, companyUpsert) ==>
        && steps == old(steps) + FullRun(created.value, trimmed, document)[..2]
        && !loading && error == OrDefault(Some(WriteError(session, companyUpsert)), CreateFailed)
        && auth.State() == old(auth.State())
      ensures created.Returned? && !WriteFails(online, session, companyUpsert)
              && WriteFails(online, session, commercialUpsert) ==>
        && steps == old(steps) + FullRun(created.value, trimmed, document)[..3]
        && !loading && error == OrDefault(Some(WriteError(session, commercialUpsert)), CreateFailed)
        && auth.State() == old(auth.State())
      ensures created.Returned? && !WriteFails(online, session, companyUpsert)
              && !WriteFails(online, session, commercialUpsert) ==>
        && steps == old(steps) + FullRun(created.value, trimmed, document)
        && loading && error == ""
        && auth.State() == Auth.SetAuthenticatedCompanyStep(old(auth.State()), created.value, trimmed, OwnerRole)
    {
      loading := true;
      error := "";
      steps := steps + [CreateCompany(trimmed)];
      if created.Threw? {
        error := OrDefault(Some(created.message), CreateFailed);
        loading := false;
        return;
      }
      Proceed(db, auth, created.value, trimmed, online, session, companyUpsert, commercialUpsert, old(steps));
    }

    /** The steps after the company exists: the two settings writes, then the hand-over.
        `before` is the step list as it was before the company was created. */
    method Proceed(db: Database.DataLayer, auth: Auth.AuthSession, id: string, trimmed: string, online: bool,
                   session: Option<string>, companyUpsert: Outcome<Record>, commercialUpsert: Outcome<Record>,
                   ghost before: seq<Step>)
      requires db.Valid() && steps == before + [CreateCompany(trimmed)]
      modifies this, db, auth
      ensures db.Valid() && db.queue == old(db.queue)
      ensures docType == old(docType) && document == old(document) && name == old(name)
      ensures WriteFails(online, session, companyUpsert) ==>
        && steps == before + FullRun(id, trimmed, document)[..2]
        && !loading && error == OrDefault(Some(WriteError(session, companyUpsert)), CreateFailed)
        && auth.State() == old(auth.State())
      ensures !WriteFails(online, session, companyUpsert) && WriteFails(online, session, commercialUpsert) ==>
        && steps == before + FullRun(id, trimmed, document)[..3]
        && !loading && error == OrDefault(Some(WriteError(session, commercialUpsert)), CreateFailed)
        && auth.State() == old(auth.State())
      ensures !WriteFails(online, session, companyUpsert) && !WriteFails(online, session, commercialUpsert) ==>
        && steps == before + FullRun(id, trimmed, document)
        && loading == old(loading) && error == old(error)
        && auth.State() == Auth.SetAuthenticatedCompanyStep(old(auth.State()), id, trimmed, OwnerRole)
    {
      var run := FullRun(id, trimmed, document);
      assert run[..2] == [run[0], run[1]] && run[..3] == [run[0], run[1], run[2]];
      assert run == [run[0], run[1], run[2], run[3], run[4]];
      ghost var authBefore := auth.State();
      steps := steps + [run[1]];
      var failure := WriteStep(db, run[1], online, session, companyUpsert);
      assert auth.State() == authBefore;
      if failure.Some? {
        error := OrDefault(failure, CreateFailed);
        loading := false;
        return;
      }
      steps := steps + [run[2]];
      failure := WriteStep(db, run[2], online, session, commercialUpsert);
      assert auth.State() == authBefore;
      if failure.Some? {
        error := OrDefault(failure, CreateFailed);
        loading := false;
        return;
      }
      auth.SetAuthenticatedCompany(id, trimmed, OwnerRole);
      steps := steps + [run[3], run[4]];
    }
  }
}
