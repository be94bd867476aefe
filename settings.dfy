/** The admin settings editor: the credentials form, the list of domains, the list of concern
    types and the map from concern type to the prompt shown to the customer. Every listed
    concern type has a prompt in the initial state, and the editing handlers keep it so. */
module Settings {
  import opened Wrappers
  import opened Seqs
  import opened Text

  const DefaultUsername := "admin"
  const DefaultDomain := "https://feedback.home-ki.eu"
  /** The prompt a newly added concern type gets. */
  const DefaultPrompt := "Wie war Ihre Erfahrung mit unserem Service?"

  const DefaultTypes: seq<string> := [
    "Internet-Freischaltung", "Störung", "Servicebesuch", "Beratung", "Rechnung", "Kündigung", "Sonstiges"
  ]

  const DefaultTexts: map<string, string> := map[
    "Internet-Freischaltung" := "Kürzlich wurde Ihr Internet freigeschaltet. Wie war Ihre Erfahrung mit unserem Service?",
    "Störung" := "Wir haben Ihre gemeldete Störung bearbeitet. Wie zufrieden sind Sie mit der Lösung?",
    "Servicebesuch" := "Unser Techniker war bei Ihnen vor Ort. Wie bewerten Sie den Servicebesuch?",
    "Beratung" := "Sie haben eine Beratung bei uns erhalten. Wie hilfreich war unser Beratungsgespräch?",
    "Rechnung" := "Bezüglich Ihrer Rechnungsanfrage: Wie zufrieden sind Sie mit der Bearbeitung?",
    "Kündigung" := "Ihre Kündigung wurde bearbeitet. Wie bewerten Sie unseren Kündigungsprozess?",
    "Sonstiges" := DefaultPrompt
  ]

  /** Every listed concern type has a prompt. */
  predicate Covered(types: seq<string>, texts: map<string, string>)
  {
    forall i :: 0 <= i < |types| ==> types[i] in texts
  }

  /** `list.filter(x => x !== v)`. */
  function Without(list: seq<string>, v: string): seq<string>
  {
    Filter(list, x => x != v)
  }

  /** Removing `v` removes every copy of it and keeps the other entries, with their
      multiplicities, in their order. */
  lemma WithoutSpec(list: seq<string>, v: string)
    ensures v !in Without(list, v)
    ensures IsSubsequence(Without(list, v), list)
    ensures forall x :: x != v ==> multiset(Without(list, v))[x] == multiset(list)[x]
    ensures v !in list ==> Without(list, v) == list
  {
    FilterIsSubsequence(list, x => x != v);
    FilterKeepsAll(list, x => x != v);
  }

  /** The initial lists meet the invariant. */
  lemma DefaultsCovered()
    ensures Covered(DefaultTypes, DefaultTexts)
    ensures forall t :: t in DefaultTexts <==> t in DefaultTypes
  {
  }

  /** Setting one prompt keeps the invariant. */
  lemma UpdateTextCovered(types: seq<string>, texts: map<string, string>, concern: string, text: string)
    requires Covered(types, texts)
    ensures Covered(types, texts[concern := text])
  {
  }

  /** Appending a type together with a prompt for it keeps the invariant. */
  lemma AddTypeCovered(types: seq<string>, texts: map<string, string>, name: string, prompt: string)
    requires Covered(types, texts)
    ensures Covered(types + [name], texts[name := prompt])
  {
  }

  /** Removing a type from the list and its prompt from the map keeps the invariant. */
  lemma DeleteTypeCovered(types: seq<string>, texts: map<string, string>, concern: string)
    requires Covered(types, texts)
    ensures Covered(Without(types, concern), texts - {concern})
  {
    var r := Without(types, concern);
    forall i | 0 <= i < |r| ensures r[i] in texts - {concern} {
      assert r[i] in r;
    }
  }

  /** A loaded settings document; each field may be absent. */
  datatype LoadedSettings = LoadedSettings(
    domains: Option<seq<string>>,
    concernTexts: Option<map<string, string>>,
    concernTypes: Option<seq<string>>)

  /** The body `saveSettings` sends. */
  datatype SettingsPayload = SettingsPayload(domains: seq<string>, concernTexts: map<string, string>, concernTypes: seq<string>)

  datatype Credentials = Credentials(username: string, password: string)

  datatype SaveOutcome = BlankPassword | Saved | SaveFailed

  class Editor {
    /** The prompt a newly added concern type gets; the constructor sets it to `DefaultPrompt`. */
    const defaultPrompt: string
    var username: string
    var password: string
    var domains: seq<string>
    var concernTexts: map<string, string>
    var concernTypes: seq<string>
    var newDomain: string
    var newConcernType: string
    /** Set while a save is awaiting the server; it disables every save button. */
    var loading: bool

    predicate Valid()
      reads this
    {
      Covered(concernTypes, concernTexts)
    }

    constructor ()
      ensures username == DefaultUsername && password == ""
      ensures domains == [DefaultDomain]
      ensures concernTypes == DefaultTypes && concernTexts == DefaultTexts
      ensures newDomain == "" && newConcernType == ""
      ensures defaultPrompt == DefaultPrompt
      ensures !loading
      ensures Valid()
    {
      defaultPrompt := DefaultPrompt;
      username := DefaultUsername;
      password := "";
      domains := [DefaultDomain];
      concernTexts := DefaultTexts;
      concernTypes := DefaultTypes;
      newDomain := "";
      newConcernType := "";
      loading := false;
      DefaultsCovered();
    }

    /** The credential inputs' change handlers. */
    method SetCredentials(user: string, pass: string)
      modifies this
      ensures username == user && password == pass
      ensures domains == old(domains) && concernTexts == old(concernTexts) && concernTypes == old(concernTypes)
      ensures newDomain == old(newDomain) && newConcernType == old(newConcernType) && loading == old(loading)
    {
      username, password := user, pass;
    }

    method SetNewDomain(value: string)
      modifies this
      ensures newDomain == value
      ensures username == old(username) && password == old(password)
      ensures domains == old(domains) && concernTexts == old(concernTexts) && concernTypes == old(concernTypes)
      ensures newConcernType == old(newConcernType) && loading == old(loading)
    {
      newDomain := value;
    }

    method SetNewConcernType(value: string)
      modifies this
      ensures newConcernType == value
      ensures username == old(username) && password == old(password)
      ensures domains == old(domains) && concernTexts == old(concernTexts) && concernTypes == old(concernTypes)
      ensures newDomain == old(newDomain) && loading == old(loading)
    {
      newConcernType := value;
    }

    /** `loadSettings`: each field present in the loaded document replaces the current one.
        A failed load changes nothing. The loaded types and texts are taken as they come, so
        the invariant is re-established only when the document meets it. */
    method LoadSettings(loaded: Option<LoadedSettings>)
      modifies this
      ensures loaded.None? ==> domains == old(domains) && concernTexts == old(concernTexts) && concernTypes == old(concernTypes)
      ensures loaded.Some? ==> domains == (if loaded.value.domains.Some? then loaded.value.domains.value else old(domains))
      ensures loaded.Some? ==> concernTexts == (if loaded.value.concernTexts.Some? then loaded.value.concernTexts.value else old(concernTexts))
      ensures loaded.Some? ==> concernTypes == (if loaded.value.concernTypes.Some? then loaded.value.concernTypes.value else old(concernTypes))
      ensures username == old(username) && password == old(password)
      ensures newDomain == old(newDomain) && newConcernType == old(newConcernType) && loading == old(loading)
    {
      if loaded.Some? {
        var s := loaded.value;
        if s.domains.Some? {
          domains := s.domains.value;
        }
        if s.concernTexts.Some? {
          concernTexts := s.concernTexts.value;
        }
        if s.concernTypes.Some? {
          concernTypes := s.concernTypes.value;
        }
      }
    }

    /** `handleSaveCredentials` up to the request: a password that is blank after trimming is
        refused and nothing is sent; otherwise the credentials as typed at the click are sent
        and the save buttons are disabled until the request settles. */
    method BeginSaveCredentials() returns (sent: Option<Credentials>)
      requires !loading
      modifies this
      ensures IsBlank(password) ==> sent == None && !loading
      ensures !IsBlank(password) ==> sent == Some(Credentials(username, password)) && loading
      ensures username == old(username) && password == old(password)
      ensures domains == old(domains) && concernTexts == old(concernTexts) && concernTypes == old(concernTypes)
      ensures newDomain == old(newDomain) && newConcernType == old(newConcernType)
    {
      if IsBlank(password) {
        return None;
      }
      sent := Some(Credentials(username, password));
      loading := true;
    }

    /** `handleSaveCredentials` after the request settles. On success the form is set from the
        credentials captured at the click with the password cleared, so edits typed in the
        meantime are overwritten; on failure the form stays as it is. Either way the save
        buttons are enabled again. */
    method CompleteSaveCredentials(sent: Credentials, fails: bool) returns (outcome: SaveOutcome)
      requires loading
      modifies this
      ensures !fails ==> outcome == Saved && username == sent.username && password == ""
      ensures fails ==> outcome == SaveFailed && username == old(username) && password == old(password)
      ensures !loading
      ensures domains == old(domains) && concernTexts == old(concernTexts) && concernTypes == old(concernTypes)
      ensures newDomain == old(newDomain) && newConcernType == old(newConcernType)
    {
      if fails {
        outcome := SaveFailed;
      } else {
        outcome := Saved;
        username, password := sent.username, "";
      }
      loading := false;
    }

    /** `handleSaveCredentials` with no edit while the request is pending: the typed
        credentials are sent, and on success the password is cleared and the username kept. */
    method SaveCredentials(fails: bool) returns (outcome: SaveOutcome, sent: Option<Credentials>)
      requires !loading
      modifies this
      ensures IsBlank(old(password)) ==> outcome == BlankPassword && sent == None && password == old(password)
      ensures !IsBlank(old(password)) ==> sent == Some(Credentials(old(username), old(password)))
      ensures !IsBlank(old(password)) && !fails ==> outcome == Saved && password == ""
      ensures !IsBlank(old(password)) && fails ==> outcome == SaveFailed && password == old(password)
      ensures username == old(username) && !loading
      ensures domains == old(domains) && concernTexts == old(concernTexts) && concernTypes == old(concernTypes)
      ensures newDomain == old(newDomain) && newConcernType == old(newConcernType)
    {
      sent := BeginSaveCredentials();
      if sent == None {
        return BlankPassword, None;
      }
      outcome := CompleteSaveCredentials(sent.value, fails);
    }

    /** `handleAddDomain`: a blank input does nothing; otherwise the trimmed input is
        appended, duplicates included, and the input is cleared. */
    method AddDomain()
      modifies this
      ensures IsBlank(old(newDomain)) ==> domains == old(domains) && newDomain == old(newDomain)
      ensures !IsBlank(old(newDomain)) ==> domains == old(domains) + [Trim(old(newDomain))] && newDomain == ""
      ensures !IsBlank(old(newDomain)) ==> Trim(domains[|old(domains)|]) == domains[|old(domains)|]
      ensures username == old(username) && password == old(password)
      ensures concernTexts == old(concernTexts) && concernTypes == old(concernTypes)
      ensures newConcernType == old(newConcernType) && loading == old(loading)
    {
      if IsBlank(newDomain) {
        return;
      }
      TrimIdempotent(newDomain);
      domains := domains + [Trim(newDomain)];
      newDomain := "";
    }

    /** `handleDeleteDomain`: every entry equal to `domain` is removed. */
    method DeleteDomain(domain: string)
      modifies this
      ensures domains == Without(old(domains), domain)
      ensures username == old(username) && password == old(password)
      ensures concernTexts == old(concernTexts) && concernTypes == old(concernTypes)
      ensures newDomain == old(newDomain) && newConcernType == old(newConcernType) && loading == old(loading)
    {
      domains := Without(domains, domain);
    }

    /** `handleUpdateConcernText`: sets the prompt of one concern type and no other. */
    method UpdateConcernText(concern: string, text: string)
      modifies this
      ensures concernTexts == old(concernTexts)[concern := text]
      ensures old(Valid()) ==> Valid()
      ensures username == old(username) && password == old(password)
      ensures domains == old(domains) && concernTypes == old(concernTypes)
      ensures newDomain == old(newDomain) && newConcernType == old(newConcernType) && loading == old(loading)
    {
      if Valid() {
        UpdateTextCovered(concernTypes, concernTexts, concern, text);
      }
      concernTexts := concernTexts[concern := text];
    }

    /** `handleAddConcernType`: a blank input does nothing; otherwise the trimmed name is
        appended to the types, gets the default prompt (replacing any prompt it had), and
        the input is cleared. */
    method AddConcernType()
      modifies this
      ensures IsBlank(old(newConcernType)) ==>
        concernTypes == old(concernTypes) && concernTexts == old(concernTexts) && newConcernType == old(newConcernType)
      ensures !IsBlank(old(newConcernType)) ==>
        concernTypes == old(concernTypes) + [Trim(old(newConcernType))] &&
        concernTexts == old(concernTexts)[Trim(old(newConcernType)) := defaultPrompt] &&
        newConcernType == ""
      ensures !IsBlank(old(newConcernType)) ==> Trim(concernTypes[|old(concernTypes)|]) == concernTypes[|old(concernTypes)|]
      ensures old(Valid()) ==> Valid()
      ensures username == old(username) && password == old(password)
      ensures domains == old(domains) && newDomain == old(newDomain) && loading == old(loading)
    {
      var name := Trim(newConcernType);
      if name == "" {
        return;
      }
      TrimIdempotent(newConcernType);
      if Valid() {
        AddTypeCovered(concernTypes, concernTexts, name, defaultPrompt);
      }
      concernTypes := concernTypes + [name];
      concernTexts := concernTexts[name := defaultPrompt];
      newConcernType := "";
    }

    /** `handleDeleteConcernType`: every copy of the type leaves the list and its prompt
        leaves the map; the other prompts stay. */
    method DeleteConcernType(concern: string)
      modifies this
      ensures concernTypes == Without(old(concernTypes), concern)
      ensures concernTexts == old(concernTexts) - {concern}
      ensures old(Valid()) ==> Valid()
      ensures username == old(username) && password == old(password)
      ensures domains == old(domains)
      ensures newDomain == old(newDomain) && newConcernType == old(newConcernType) && loading == old(loading)
    {
      if Valid() {
        DeleteTypeCovered(concernTypes, concernTexts, concern);
      }
      concernTypes := Without(concernTypes, concern);
      concernTexts := concernTexts - {concern};
    }

    /** `handleSaveSettings` up to the request: the payload is the current domains, prompts
        and types, and every save button is disabled until the request settles. */
    method BeginSaveSettings() returns (payload: SettingsPayload)
      requires !loading
      modifies this
      ensures payload.domains == domains && payload.concernTexts == concernTexts && payload.concernTypes == concernTypes
      ensures Valid() ==> Covered(payload.concernTypes, payload.concernTexts)
      ensures loading
      ensures username == old(username) && password == old(password)
      ensures domains == old(domains) && concernTexts == old(concernTexts) && concernTypes == old(concernTypes)
      ensures newDomain == old(newDomain) && newConcernType == old(newConcernType)
    {
      payload := SettingsPayload(domains, concernTexts, concernTypes);
      loading := true;
    }

    /** `handleSaveSettings` after the request settles: only a toast tells success from
        failure, and the save buttons are enabled again. */
    method CompleteSaveSettings(fails: bool) returns (outcome: SaveOutcome)
      requires loading
      modifies this
      ensures outcome == (if fails then SaveFailed else Saved)
      ensures !loading
      ensures username == old(username) && password == old(password)
      ensures domains == old(domains) && concernTexts == old(concernTexts) && concernTypes == old(concernTypes)
      ensures newDomain == old(newDomain) && newConcernType == old(newConcernType)
    {
      outcome := if fails then SaveFailed else Saved;
      loading := false;
    }

    /** `handleSaveSettings` run to completion: the current values are sent and nothing but
        the outcome results. */
    method SaveSettings(fails: bool) returns (outcome: SaveOutcome, payload: SettingsPayload)
      requires !loading
      modifies this
      ensures payload == SettingsPayload(old(domains), old(concernTexts), old(concernTypes))
      ensures old(Valid()) ==> Covered(payload.concernTypes, payload.concernTexts)
      ensures outcome == (if fails then SaveFailed else Saved) && !loading
      ensures username == old(username) && password == old(password)
      ensures domains == old(domains) && concernTexts == old(concernTexts) && concernTypes == old(concernTypes)
      ensures newDomain == old(newDomain) && newConcernType == old(newConcernType)
    {
      payload := BeginSaveSettings();
      outcome := CompleteSaveSettings(fails);
    }
  }

  /** Adding a type and deleting it again leaves no copy of it and no prompt for it, and
      keeps the invariant throughout. */
  method AddThenDelete()
  {
    var e := new Editor();
    e.SetNewConcernType("  Umzug ");
    assert !IsBlank("  Umzug ") by {
      assert !IsJsWhiteSpace("  Umzug "[2]);
      BlankIffAllWhiteSpace("  Umzug ");
    }
    e.AddConcernType();
    assert e.Valid();
    var name := Trim("  Umzug ");
    assert name in e.concernTexts && e.concernTexts[name] == DefaultPrompt;
    e.DeleteConcernType(name);
    WithoutSpec(e.concernTypes, name);
    assert name !in e.concernTexts;
    assert e.Valid();
  }

  /** Editing the username while the credentials are being saved: the success handler sets
      the form from the credentials captured at the click, so the edit is lost. */
  method EditDuringSave()
  {
    var e := new Editor();
    e.SetCredentials("admin", "geheim");
    assert !IsBlank("geheim") by {
      assert !IsJsWhiteSpace("geheim"[0]);
      BlankIffAllWhiteSpace("geheim");
    }
    var sent := e.BeginSaveCredentials();
    e.SetCredentials("chef", "neu");
    var outcome := e.CompleteSaveCredentials(sent.value, false);
    assert outcome == Saved && e.username == "admin" && e.password == "";
  }

  /** A pending settings save sets `loading`, which `BeginSaveCredentials` requires to be
      false: the credentials save can start only once the settings request has settled. */
  method SaveSettingsBlocksCredentials()
  {
    var e := new Editor();
    var payload := e.BeginSaveSettings();
    assert e.loading;
    var outcome := e.CompleteSaveSettings(true);
    assert outcome == SaveFailed && !e.loading;
    var sent := e.BeginSaveCredentials();
    assert sent == None;
  }
}
