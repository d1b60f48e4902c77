/**
 * The SaaS template's configuration registry: five configuration sections
 * of named attributes, and the feature modules registered by name in
 * insertion order. A section is held as its attribute dictionary (the
 * dataclass instance's `__dict__`), so that loading a file can store any
 * JSON value in any existing attribute, as `setattr` does.
 */
module TemplateConfig {
  import opened Common
  import Sorting

  datatype FeatureModule = FeatureModule(
    name: string,
    displayName: string,
    description: string,
    enabled: bool,
    tables: seq<string>,
    apiPrefix: string,
    frontendRoutes: seq<string>)

  /** The `FeatureModule` constructor: lists left as None become empty lists. */
  function NewFeatureModule(name: string, displayName: string, description: string, enabled: bool,
                            tables: Option<seq<string>>, apiPrefix: string,
                            frontendRoutes: Option<seq<string>>): FeatureModule
  {
    FeatureModule(name, displayName, description, enabled,
                  if tables.Some? then tables.value else [],
                  apiPrefix,
                  if frontendRoutes.Some? then frontendRoutes.value else [])
  }

  /** A module built with the defaults is enabled, under "/api", with no tables and no routes. */
  lemma FeatureModuleDefaults(name: string, displayName: string, description: string)
    ensures var m := NewFeatureModule(name, displayName, description, true, None, "/api", None);
      m.enabled && m.tables == [] && m.frontendRoutes == [] && m.apiPrefix == "/api"
  {
  }

  // ---------------------------------------------------------------------------
  // Sections and their defaults

  /** The five configuration sections, in the order a file's sections are merged. */
  datatype Section = Branding | Database | Auth | Email | Integrations

  const SectionOrder: seq<Section> := [Branding, Database, Auth, Email, Integrations]

  /** The attribute name of a section on the template, and its key in a configuration file. */
  function SectionName(s: Section): string
  {
    match s
    case Branding => "branding"
    case Database => "database"
    case Auth => "auth"
    case Email => "email"
    case Integrations => "integrations"
  }

  const DefaultCoreTables: seq<string> := ["users", "user_sessions", "notification_log"]

  function Strings(ss: seq<string>): (r: seq<Json>)
    ensures |r| == |ss| && forall i :: 0 <= i < |ss| ==> r[i] == JStr(ss[i])
  {
    if ss == [] then [] else Strings(ss[..|ss| - 1]) + [JStr(ss[|ss| - 1])]
  }

  /** A JSON list of strings as the strings; None for any other value. */
  function StringList(v: Json): (r: Option<seq<string>>)
    ensures r.Some? ==> v.JList? && |r.value| == |v.items|
    decreases if v.JList? then |v.items| else 0
  {
    if !v.JList? then None
    else if v.items == [] then Some([])
    else
      var xs := v.items;
      var front := StringList(JList(xs[..|xs| - 1]));
      if front.Some? && xs[|xs| - 1].JStr? then Some(front.value + [xs[|xs| - 1].s]) else None
  }

  lemma {:induction false} StringListStrings(ss: seq<string>)
    ensures StringList(JList(Strings(ss))) == Some(ss)
    decreases |ss|
  {
    if ss != [] {
      var n := |ss| - 1;
      StringListStrings(ss[..n]);
      assert Strings(ss)[..n] == Strings(ss[..n]);
      assert ss[..n] + [ss[n]] == ss;
    }
  }

  // Default attribute values, named so that a proof unfolds them only where it needs them.
  const DefaultAppName := "SaaS Template"
  const DefaultAppTagline := "Your customizable SaaS solution"
  const DefaultAppDescription := "A complete SaaS template with authentication, user management, and extensible features"
  const DefaultAppEmoji := "\U{1F680}"
  const DefaultSupportEmail := "support@yourcompany.com"
  const DefaultWebsiteUrl := "https://yourcompany.com"
  const DefaultMetaTitle := "SaaS Template - Complete Solution"
  const DefaultMetaKeywords := "saas, template, authentication, user management"
  const DefaultWelcomeEmailTemplate := "welcome_email.html"
  const DefaultVerificationEmailTemplate := "verification_email.html"
  const DefaultPasswordResetTemplate := "password_reset.html"

  // Attribute names of the section objects.
  const AppNameAttr := "app_name"
  const AppTaglineAttr := "app_tagline"
  const AppDescriptionAttr := "app_description"
  const AppEmojiAttr := "app_emoji"
  const CompanyNameAttr := "company_name"
  const SupportEmailAttr := "support_email"
  const WebsiteUrlAttr := "website_url"
  const MetaTitleAttr := "meta_title"
  const MetaDescriptionAttr := "meta_description"
  const MetaKeywordsAttr := "meta_keywords"
  const DefaultDbTypeAttr := "default_db_type"
  const SqliteDbNameAttr := "sqlite_db_name"
  const CoreTablesAttr := "core_tables"
  const RequireEmailVerificationAttr := "require_email_verification"
  const PasswordMinLengthAttr := "password_min_length"
  const PasswordRequireNumbersAttr := "password_require_numbers"
  const PasswordRequireLettersAttr := "password_require_letters"
  const PasswordRequireSymbolsAttr := "password_require_symbols"
  const EmailVerificationTokenExpiresAttr := "email_verification_token_expires"
  const PasswordResetTokenExpiresAttr := "password_reset_token_expires"
  const RememberMeDurationAttr := "remember_me_duration"
  const SessionTimeoutAttr := "session_timeout"
  const EnabledAttr := "enabled"
  const ProviderAttr := "provider"
  const WelcomeEmailTemplateAttr := "welcome_email_template"
  const VerificationEmailTemplateAttr := "verification_email_template"
  const PasswordResetTemplateAttr := "password_reset_template"
  const BankIntegrationEnabledAttr := "bank_integration_enabled"
  const BankProviderAttr := "bank_provider"
  const PaymentIntegrationEnabledAttr := "payment_integration_enabled"
  const PaymentProviderAttr := "payment_provider"
  const AnalyticsEnabledAttr := "analytics_enabled"
  const AnalyticsProviderAttr := "analytics_provider"
  const EmailMarketingEnabledAttr := "email_marketing_enabled"
  const EmailMarketingProviderAttr := "email_marketing_provider"

  function DefaultBranding(): map<string, Json>
  {
    map[
      AppNameAttr := JStr(DefaultAppName),
      AppTaglineAttr := JStr(DefaultAppTagline),
      AppDescriptionAttr := JStr(DefaultAppDescription),
      AppEmojiAttr := JStr(DefaultAppEmoji),
      CompanyNameAttr := JStr("Your Company"),
      SupportEmailAttr := JStr(DefaultSupportEmail),
      WebsiteUrlAttr := JStr(DefaultWebsiteUrl),
      MetaTitleAttr := JStr(DefaultMetaTitle),
      MetaDescriptionAttr := JStr(DefaultAppDescription),
      MetaKeywordsAttr := JStr(DefaultMetaKeywords)]
  }

  /** `DatabaseConfig(core_tables=...)`: no list given means the three core tables. */
  function DatabaseConfig(coreTables: Option<seq<string>>): map<string, Json>
  {
    map[
      DefaultDbTypeAttr := JStr("sqlite"),
      SqliteDbNameAttr := JStr("app.db"),
      CoreTablesAttr := JList(Strings(if coreTables.Some? then coreTables.value else DefaultCoreTables))]
  }

  function DefaultAuth(): map<string, Json>
  {
    map[
      RequireEmailVerificationAttr := JBool(true),
      PasswordMinLengthAttr := JNum(8, 0),
      PasswordRequireNumbersAttr := JBool(true),
      PasswordRequireLettersAttr := JBool(true),
      PasswordRequireSymbolsAttr := JBool(false),
      EmailVerificationTokenExpiresAttr := JNum(86400, 0),
      PasswordResetTokenExpiresAttr := JNum(3600, 0),
      RememberMeDurationAttr := JNum(2592000, 0),
      SessionTimeoutAttr := JNum(3600, 0)]
  }

  function DefaultEmail(): map<string, Json>
  {
    map[
      EnabledAttr := JBool(true),
      ProviderAttr := JStr("smtp"),
      WelcomeEmailTemplateAttr := JStr(DefaultWelcomeEmailTemplate),
      VerificationEmailTemplateAttr := JStr(DefaultVerificationEmailTemplate),
      PasswordResetTemplateAttr := JStr(DefaultPasswordResetTemplate)]
  }

  function DefaultIntegrations(): map<string, Json>
  {
    map[
      BankIntegrationEnabledAttr := JBool(false),
      BankProviderAttr := JStr("akahu"),
      PaymentIntegrationEnabledAttr := JBool(false),
      PaymentProviderAttr := JStr("stripe"),
      AnalyticsEnabledAttr := JBool(false),
      AnalyticsProviderAttr := JStr("google"),
      EmailMarketingEnabledAttr := JBool(false),
      EmailMarketingProviderAttr := JStr("mailchimp")]
  }

  /** The attributes a section object starts with. */
  function DefaultSection(s: Section): map<string, Json>
  {
    match s
    case Branding => DefaultBranding()
    case Database => DatabaseConfig(None)
    case Auth => DefaultAuth()
    case Email => DefaultEmail()
    case Integrations => DefaultIntegrations()
  }

  /** The core tables an attribute dictionary of the database section lists; None when they are not a list of strings. */
  function CoreTables(database: map<string, Json>): Option<seq<string>>
  {
    if CoreTablesAttr in database then StringList(database[CoreTablesAttr]) else None
  }

  /** A fresh template's database section lists exactly the three core tables. */
  lemma DefaultCoreTablesListed()
    ensures CoreTables(DatabaseConfig(None)) == Some(["users", "user_sessions", "notification_log"])
  {
    StringListStrings(DefaultCoreTables);
  }

  /** Every section object exists: the template creates all five and nothing removes one. */
  predicate SectionsPresent(sections: map<Section, map<string, Json>>)
  {
    forall s: Section :: s in sections
  }

  // ---------------------------------------------------------------------------
  // The module registry

  predicate Distinct(s: seq<string>)
  {
    forall i, j :: 0 <= i < j < |s| ==> s[i] != s[j]
  }

  /** `order` lists the registered names once each, in insertion order. */
  ghost predicate Registry(modules: map<string, FeatureModule>, order: seq<string>)
  {
    Distinct(order) && forall n :: n in order <==> n in modules
  }

  /** `feature_modules.values()`: the modules in insertion order. */
  function InOrder(order: seq<string>, modules: map<string, FeatureModule>): (r: seq<FeatureModule>)
    requires forall n :: n in order ==> n in modules
    ensures |r| == |order| && forall i :: 0 <= i < |order| ==> r[i] == modules[order[i]]
  {
    if order == [] then [] else InOrder(order[..|order| - 1], modules) + [modules[order[|order| - 1]]]
  }

  predicate IsEnabled(m: FeatureModule)
  {
    m.enabled
  }

  function EnabledModules(order: seq<string>, modules: map<string, FeatureModule>): seq<FeatureModule>
    requires forall n :: n in order ==> n in modules
  {
    Sorting.Filter(IsEnabled, InOrder(order, modules))
  }

  /** The enabled modules are exactly the registered modules whose flag is set. */
  lemma EnabledModulesSpec(order: seq<string>, modules: map<string, FeatureModule>)
    requires Registry(modules, order)
    ensures forall m :: m in EnabledModules(order, modules) <==> m.enabled && exists n :: n in modules && modules[n] == m
  {
    Sorting.FilterMembership(IsEnabled, InOrder(order, modules));
    var vs := InOrder(order, modules);
    forall m: FeatureModule | m.enabled && exists n :: n in modules && modules[n] == m
      ensures m in vs
    {
      var n :| n in modules && modules[n] == m;
      var i :| 0 <= i < |order| && order[i] == n;
      assert vs[i] == m;
    }
  }

  /** Registering a module appends it to the enabled ones exactly when it is new and enabled. */
  lemma EnabledModulesAppend(order: seq<string>, modules: map<string, FeatureModule>, m: FeatureModule)
    requires Registry(modules, order) && m.name !in modules
    ensures EnabledModules(order + [m.name], modules[m.name := m])
         == EnabledModules(order, modules) + (if m.enabled then [m] else [])
  {
    var o := order + [m.name];
    var ms := modules[m.name := m];
    assert o[..|o| - 1] == order;
    assert InOrder(order, ms) == InOrder(order, modules);
    Sorting.FilterAppend(IsEnabled, InOrder(order, modules), [m]);
  }

  /** The tables of the modules, one module after another. */
  function TablesOf(mods: seq<FeatureModule>): seq<string>
  {
    if mods == [] then [] else TablesOf(mods[..|mods| - 1]) + mods[|mods| - 1].tables
  }

  lemma {:induction false} TablesOfMembership(mods: seq<FeatureModule>)
    ensures forall t :: t in TablesOf(mods) <==> exists m :: m in mods && t in m.tables
    decreases |mods|
  {
    if mods != [] {
      var n := |mods| - 1;
      TablesOfMembership(mods[..n]);
      forall t | exists m :: m in mods && t in m.tables
        ensures t in TablesOf(mods)
      {
        var m :| m in mods && t in m.tables;
        if m != mods[n] {
          var i :| 0 <= i < |mods| && mods[i] == m;
          assert mods[..n][i] == m;
        }
      }
    }
  }

  /** `list(set(s))`, listing each value at its first occurrence. */
  function Dedupe(s: seq<string>): seq<string>
  {
    if s == [] then []
    else
      var d := Dedupe(s[..|s| - 1]);
      if s[|s| - 1] in d then d else d + [s[|s| - 1]]
  }

  lemma {:induction false} DedupeSpec(s: seq<string>)
    ensures Distinct(Dedupe(s))
    ensures forall x :: x in Dedupe(s) <==> x in s
    decreases |s|
  {
    if s != [] {
      var n := |s| - 1;
      DedupeSpec(s[..n]);
      assert s == s[..n] + [s[n]];
    }
  }

  /** What a template's table list holds: every core table and every table of an enabled module, once each. */
  lemma AllTablesSpec(core: seq<string>, enabled: seq<FeatureModule>)
    ensures Distinct(Dedupe(core + TablesOf(enabled)))
    ensures forall t :: t in Dedupe(core + TablesOf(enabled)) <==>
      t in core || exists m :: m in enabled && t in m.tables
  {
    DedupeSpec(core + TablesOf(enabled));
    TablesOfMembership(enabled);
  }

  // ---------------------------------------------------------------------------
  // Loading a configuration file

  /** Copies each given value into the attribute of that name; names the section lacks are ignored. */
  function MergeAttrs(attrs: map<string, Json>, items: seq<(string, Json)>): (r: map<string, Json>)
    ensures r.Keys == attrs.Keys
  {
    if items == [] then attrs
    else
      var n := |items| - 1;
      var m := MergeAttrs(attrs, items[..n]);
      if items[n].0 in m then m[items[n].0 := items[n].1] else m
  }

  /**
   * The merge only overwrites attributes the section has: each takes the
   * last value given for it, or keeps its own.
   */
  lemma {:induction false} MergeAttrsSpec(attrs: map<string, Json>, items: seq<(string, Json)>)
    ensures MergeAttrs(attrs, items).Keys == attrs.Keys
    ensures forall k :: k in attrs ==>
      MergeAttrs(attrs, items)[k] == if Get(items, k).Some? then Get(items, k).value else attrs[k]
    decreases |items|
  {
    if items != [] {
      MergeAttrsSpec(attrs, items[..|items| - 1]);
    }
  }

  /** `FeatureModule(**data)`'s keyword names. */
  predicate ModuleField(k: string)
  {
    k == "name" || k == "display_name" || k == "description" || k == "enabled"
    || k == "tables" || k == "api_prefix" || k == "frontend_routes"
  }

  /** A list attribute read from a file: absent or null is the empty list. */
  function ListField(v: Option<Json>): Option<seq<string>>
  {
    match v
    case None => Some([])
    case Some(JNull) => Some([])
    case Some(x) => StringList(x)
  }

  /**
   * `FeatureModule(**data)`: None where the call raises (data not an object,
   * an unknown keyword, a missing name, display name or description) or where
   * a value is of a type this model does not hold.
   */
  function ModuleFromJson(data: Json): (r: Option<FeatureModule>)
    ensures r.Some? ==> data.JObject? && forall i :: 0 <= i < |data.entries| ==> ModuleField(data.entries[i].0)
  {
    if !data.JObject? then None
    else
      var e := data.entries;
      if exists i :: 0 <= i < |e| && !ModuleField(e[i].0) then None
      else
        var name := Get(e, "name");
        var displayName := Get(e, "display_name");
        var description := Get(e, "description");
        var enabled := Get(e, "enabled");
        var tables := ListField(Get(e, "tables"));
        var prefix := Get(e, "api_prefix");
        var routes := ListField(Get(e, "frontend_routes"));
        if name.Some? && name.value.JStr? && displayName.Some? && displayName.value.JStr?
           && description.Some? && description.value.JStr? && tables.Some? && routes.Some?
           && (prefix.None? || prefix.value.JStr?)
        then
          Some(FeatureModule(name.value.s, displayName.value.s, description.value.s,
                             enabled.None? || Truthy(enabled.value), tables.value,
                             if prefix.None? then "/api" else prefix.value.s, routes.value))
        else None
  }

  /** Merging one section from the file: `stopped` when the file's value for it is not an object. */
  function SectionStep(sections: map<Section, map<string, Json>>, config: seq<(string, Json)>, s: Section)
    : (r: (map<Section, map<string, Json>>, bool))
    requires SectionsPresent(sections)
    ensures SectionsPresent(r.0)
  {
    var given := Get(config, SectionName(s));
    if given.None? then (sections, false)
    else if given.value.JObject? then (sections[s := MergeAttrs(sections[s], DictItems(given.value.entries))], false)
    else (sections, true)
  }

  /**
   * Merging the sections of `order`, one after another; `stopped` once a
   * section's value is not an object (its `.items()` raises and the rest of
   * the load is abandoned, keeping what was already merged).
   */
  function LoadSections(sections: map<Section, map<string, Json>>, config: seq<(string, Json)>, order: seq<Section>)
    : (r: (map<Section, map<string, Json>>, bool))
    requires SectionsPresent(sections)
    ensures SectionsPresent(r.0)
  {
    if order == [] then (sections, false)
    else
      var step := SectionStep(sections, config, order[0]);
      if step.1 then step else LoadSections(step.0, config, order[1..])
  }

  /**
   * A section is only merged from the file's object of its own name: a
   * section the file does not name keeps every attribute, and every
   * section keeps its set of attribute names.
   */
  lemma {:induction false} LoadSectionsSpec(sections: map<Section, map<string, Json>>, config: seq<(string, Json)>,
                                            order: seq<Section>)
    requires SectionsPresent(sections)
    ensures var r := LoadSections(sections, config, order).0;
      forall s: Section :: r[s].Keys == sections[s].Keys
    ensures var r := LoadSections(sections, config, order).0;
      forall s: Section :: Get(config, SectionName(s)).None? ==> r[s] == sections[s]
    decreases |order|
  {
    if order != [] {
      var step := SectionStep(sections, config, order[0]);
      if !step.1 {
        LoadSectionsSpec(step.0, config, order[1..]);
      }
    }
  }

  /** What a section's attributes are after merging one file object into it. */
  lemma MergeSectionFromFile(attrs: map<string, Json>, es: seq<(string, Json)>, k: string)
    requires k in attrs
    ensures MergeAttrs(attrs, DictItems(es))[k] == if Get(es, k).Some? then Get(es, k).value else attrs[k]
  {
    MergeAttrsSpec(attrs, DictItems(es));
    DictItemsSpec(es);
  }

  /** The registry after the modules of a file's `feature_modules` object are registered under its keys, stopping at the first that cannot be built. */
  function LoadModules(modules: map<string, FeatureModule>, order: seq<string>, items: seq<(string, Json)>)
    : (r: (map<string, FeatureModule>, seq<string>, bool))
    decreases |items|
  {
    if items == [] then (modules, order, false)
    else
      var step := Register(modules, order, items[0].0, ModuleFromJson(items[0].1));
      if step.2 then step else LoadModules(step.0, step.1, items[1..])
  }

  /** One step of the module loop: register `built` under `key`, or stop when it could not be built. */
  function Register(modules: map<string, FeatureModule>, order: seq<string>, key: string, built: Option<FeatureModule>)
    : (r: (map<string, FeatureModule>, seq<string>, bool))
    ensures r.2 <==> built.None?
  {
    if built.None? then (modules, order, true)
    else (modules[key := built.value], if key in modules then order else order + [key], false)
  }

  /**
   * Loading modules keeps the registry consistent, keeps every module
   * registered before, and appends the names it registers to the order.
   */
  lemma {:induction false} LoadModulesRegistry(modules: map<string, FeatureModule>, order: seq<string>, items: seq<(string, Json)>)
    requires Registry(modules, order)
    ensures var r := LoadModules(modules, order, items); Registry(r.0, r.1)
    ensures var r := LoadModules(modules, order, items); modules.Keys <= r.0.Keys
    ensures var r := LoadModules(modules, order, items); order <= r.1
    decreases |items|
  {
    if items != [] {
      var step := Register(modules, order, items[0].0, ModuleFromJson(items[0].1));
      if !step.2 {
        LoadModulesRegistry(step.0, step.1, items[1..]);
      }
    }
  }

  /** Each registered module sits under the key the file gives it, which need not be its own name. */
  lemma RegisteredUnderKey(modules: map<string, FeatureModule>, order: seq<string>, key: string, data: Json)
    requires ModuleFromJson(data).Some?
    ensures var r := LoadModules(modules, order, [(key, data)]);
      key in r.0 && r.0[key] == ModuleFromJson(data).value && !r.2
  {
  }

  datatype State = State(sections: map<Section, map<string, Json>>, modules: map<string, FeatureModule>, order: seq<string>)

  /**
   * `load_from_file` given what reading and decoding the file gave: an
   * error (a file that cannot be opened or decoded) or a top-level value
   * other than an object changes nothing; otherwise the sections are merged
   * and then the modules registered, until the first step that raises.
   */
  function Load(s: State, config: Result<Json>): State
    requires SectionsPresent(s.sections)
  {
    if config.Err? || !config.value.JObject? then s
    else
      var entries := config.value.entries;
      var merged := LoadSections(s.sections, entries, SectionOrder);
      var given := Get(entries, "feature_modules");
      if merged.1 || given.None? || !given.value.JObject? then s.(sections := merged.0)
      else
        var loaded := LoadModules(s.modules, s.order, DictItems(given.value.entries));
        State(merged.0, loaded.0, loaded.1)
  }

  /** A load never loses a section object or an attribute name. */
  lemma LoadKeepsSections(s: State, config: Result<Json>)
    requires SectionsPresent(s.sections)
    ensures var t := Load(s, config);
      SectionsPresent(t.sections) && forall sec: Section :: t.sections[sec].Keys == s.sections[sec].Keys
  {
    if config.Ok? && config.value.JObject? {
      LoadSectionsSpec(s.sections, config.value.entries, SectionOrder);
    }
  }

  /** A load keeps the registry consistent and never loses a registered module. */
  lemma LoadKeepsRegistry(s: State, config: Result<Json>)
    requires SectionsPresent(s.sections) && Registry(s.modules, s.order)
    ensures var t := Load(s, config);
      Registry(t.modules, t.order) && s.modules.Keys <= t.modules.Keys && s.order <= t.order
  {
    if config.Ok? && config.value.JObject? {
      var given := Get(config.value.entries, "feature_modules");
      if given.Some? && given.value.JObject? {
        LoadModulesRegistry(s.modules, s.order, DictItems(given.value.entries));
      }
    }
  }

  /** The attribute loop of one section: `setattr` for each key the section has. */
  method MergeSection(attrs: map<string, Json>, items: seq<(string, Json)>) returns (r: map<string, Json>)
    ensures r == MergeAttrs(attrs, items)
  {
    r := attrs;
    var k := 0;
    while k < |items|
      invariant 0 <= k <= |items|
      invariant r == MergeAttrs(attrs, items[..k])
    {
      assert items[..k + 1][..k] == items[..k];
      if items[k].0 in r {
        r := r[items[k].0 := items[k].1];
      }
      k := k + 1;
    }
    assert items[..k] == items;
  }

  /** `tables` extended with the tables of each module in turn. */
  method ExtendTables(core: seq<string>, mods: seq<FeatureModule>) returns (tables: seq<string>)
    ensures tables == core + TablesOf(mods)
  {
    tables := core;
    var i := 0;
    while i < |mods|
      invariant 0 <= i <= |mods|
      invariant tables == core + TablesOf(mods[..i])
    {
      assert mods[..i + 1][..i] == mods[..i];
      tables := tables + mods[i].tables;
      i := i + 1;
    }
    assert mods[..i] == mods;
  }

  /** Each value of `s` once, at its first occurrence. */
  method Unique(s: seq<string>) returns (r: seq<string>)
    ensures r == Dedupe(s)
    ensures Distinct(r) && forall x :: x in r <==> x in s
  {
    r := [];
    var j := 0;
    while j < |s|
      invariant 0 <= j <= |s|
      invariant r == Dedupe(s[..j])
    {
      assert s[..j + 1][..j] == s[..j];
      if s[j] !in r {
        r := r + [s[j]];
      }
      j := j + 1;
    }
    assert s[..j] == s;
    DedupeSpec(s);
  }

  // ---------------------------------------------------------------------------
  // The template object

  class SaaSTemplate {
    var sections: map<Section, map<string, Json>>
    var modules: map<string, FeatureModule>
    var order: seq<string>

    ghost predicate Valid()
      reads this
    {
      SectionsPresent(sections) && Registry(modules, order)
    }

    /** A template with every section at its defaults and no modules. */
    constructor ()
      ensures Valid()
      ensures forall s: Section :: sections[s] == DefaultSection(s)
      ensures modules == map[] && order == []
    {
      sections := map s | s in SectionOrder :: DefaultSection(s);
      modules := map[];
      order := [];
      new;
      forall s: Section
        ensures s in SectionOrder
      {
        match s
        case Branding =>
        case Database =>
        case Auth =>
        case Email =>
        case Integrations =>
      }
    }

    /** `add_feature_module`: stores the module under its name, replacing any module of that name. */
    method AddFeatureModule(m: FeatureModule)
      requires Valid()
      modifies this
      ensures Valid()
      ensures sections == old(sections)
      ensures modules == old(modules)[m.name := m]
      ensures order == if m.name in old(modules) then old(order) else old(order) + [m.name]
      ensures GetFeatureModule(m.name) == Some(m)
      ensures forall n :: n != m.name ==> GetFeatureModule(n) == old(GetFeatureModule(n))
    {
      if m.name !in modules {
        order := order + [m.name];
      }
      modules := modules[m.name := m];
    }

    /** `get_feature_module`: the module registered under `name`, or None. */
    function GetFeatureModule(name: string): (r: Option<FeatureModule>)
      reads this
      ensures r.Some? <==> name in modules
      ensures r.Some? ==> r.value == modules[name]
    {
      if name in modules then Some(modules[name]) else None
    }

    /** `get_enabled_modules`: the enabled modules, in the order they were first registered. */
    function GetEnabledModules(): (r: seq<FeatureModule>)
      requires Valid()
      reads this
      ensures forall m :: m in r <==> m.enabled && exists n :: n in modules && modules[n] == m
    {
      EnabledModulesSpec(order, modules);
      EnabledModules(order, modules)
    }

    /**
     * `get_all_database_tables`: the core tables and the tables of every
     * enabled module, each once; None when the database section's core
     * tables are not a list of strings. The template is left as it was.
     */
    method GetAllDatabaseTables() returns (r: Option<seq<string>>)
      requires Valid()
      ensures r.None? <==> CoreTables(sections[Database]).None?
      ensures r.Some? ==> r.value == Dedupe(CoreTables(sections[Database]).value + TablesOf(GetEnabledModules()))
      ensures r.Some? ==> Distinct(r.value)
      ensures r.Some? ==> forall t :: t in r.value <==>
        t in CoreTables(sections[Database]).value || exists m :: m in GetEnabledModules() && t in m.tables
    {
      var core := CoreTables(sections[Database]);
      if core.None? {
        return None;
      }
      var enabled := GetEnabledModules();
      var tables := ExtendTables(core.value, enabled);
      var unique := Unique(tables);
      AllTablesSpec(core.value, enabled);
      r := Some(unique);
    }

    /** The section loops of `load_from_file`: whether a section's value was not an object. */
    method MergeSections(entries: seq<(string, Json)>) returns (stopped: bool)
      requires SectionsPresent(sections)
      modifies this
      ensures (sections, stopped) == LoadSections(old(sections), entries, SectionOrder)
      ensures modules == old(modules) && order == old(order)
    {
      var i := 0;
      while i < |SectionOrder|
        invariant 0 <= i <= |SectionOrder|
        invariant SectionsPresent(sections)
        invariant LoadSections(sections, entries, SectionOrder[i..]) == LoadSections(old(sections), entries, SectionOrder)
        invariant modules == old(modules) && order == old(order)
      {
        var section := SectionOrder[i];
        var given := Get(entries, SectionName(section));
        if given.Some? {
          if !given.value.JObject? {
            return true;
          }
          var attrs := MergeSection(sections[section], DictItems(given.value.entries));
          sections := sections[section := attrs];
        }
        assert SectionOrder[i..][1..] == SectionOrder[i + 1..];
        i := i + 1;
      }
      stopped := false;
    }

    /** `load_from_file`, given what reading and decoding the file gave. */
    method LoadFromFile(config: Result<Json>)
      requires Valid()
      modifies this
      ensures Valid()
      ensures State(sections, modules, order) == Load(old(State(sections, modules, order)), config)
    {
      ghost var s0 := State(sections, modules, order);
      LoadKeepsSections(s0, config);
      LoadKeepsRegistry(s0, config);
      if config.Err? || !config.value.JObject? {
        return;
      }
      var entries := config.value.entries;
      var stopped := MergeSections(entries);
      if stopped {
        return;
      }
      var given := Get(entries, "feature_modules");
      if given.None? || !given.value.JObject? {
        return;
      }
      modules, order := RegisterAll(modules, order, DictItems(given.value.entries));
    }
  }

  /** The module loop on the registry: stops at the first module that cannot be built. */
  method RegisterAll(modules0: map<string, FeatureModule>, order0: seq<string>, items: seq<(string, Json)>)
    returns (modules: map<string, FeatureModule>, order: seq<string>)
    ensures (modules, order) == (LoadModules(modules0, order0, items).0, LoadModules(modules0, order0, items).1)
  {
    modules, order := modules0, order0;
    var k := 0;
    while k < |items|
      invariant 0 <= k <= |items|
      invariant LoadModules(modules, order, items[k..]) == LoadModules(modules0, order0, items)
    {
      var m := ModuleFromJson(items[k].1);
      if m.None? {
        return;
      }
      if items[k].0 !in modules {
        order := order + [items[k].0];
      }
      modules := modules[items[k].0 := m.value];
      assert items[k..][1..] == items[k + 1..];
      k := k + 1;
    }
  }

  // ---------------------------------------------------------------------------
  // Presets

  const RentModuleDescription := "Manage rental properties and track payments"
  const RentTagline := "Simple rent tracking for NZ landlords"
  const RentDescription := "Never miss a late rent payment again. Connect your bank account and get alerts when rent doesn't arrive on time."

  /** The property-management module: enabled, under "/api", with its two tables and two routes. */
  function RentModule(): FeatureModule
  {
    NewFeatureModule(
      "property_management", "Property Management", RentModuleDescription,
      true, Some(["properties", "transactions"]), "/api", Some(["/properties", "/dashboard"]))
  }

  /**
   * `create_rent_tracking_config`: rent-tracking branding, bank integration
   * through Akahu, and the one property-management module.
   */
  method CreateRentTrackingConfig() returns (t: SaaSTemplate)
    ensures t.Valid()
    ensures t.sections[Branding]
         == DefaultSection(Branding)[AppNameAttr := JStr("Rent Check")][AppTaglineAttr := JStr(RentTagline)]
              [AppDescriptionAttr := JStr(RentDescription)][AppEmojiAttr := JStr("\U{1F3E0}")]
    ensures t.sections[Integrations]
         == DefaultSection(Integrations)[BankIntegrationEnabledAttr := JBool(true)][BankProviderAttr := JStr("akahu")]
    ensures forall s: Section :: s != Branding && s != Integrations ==> t.sections[s] == DefaultSection(s)
    ensures t.order == ["property_management"]
    ensures t.GetFeatureModule("property_management") == Some(RentModule())
  {
    t := new SaaSTemplate();
    var branding := t.sections[Branding][AppNameAttr := JStr("Rent Check")][AppTaglineAttr := JStr(RentTagline)]
      [AppDescriptionAttr := JStr(RentDescription)][AppEmojiAttr := JStr("\U{1F3E0}")];
    var integrations := t.sections[Integrations][BankIntegrationEnabledAttr := JBool(true)][BankProviderAttr := JStr("akahu")];
    t.sections := t.sections[Branding := branding][Integrations := integrations];
    t.AddFeatureModule(RentModule());
  }
}
