/** Which object the scripts reach the backend through. The config script
    creates the client; every other script refers to it by a global name.
    The committed config and the template config bind different names, so
    what a given call reaches depends on the config page loads. */
module ClientBinding {

  /** The config script the page loads: the committed one or the template. */
  datatype Config = MainConfig | TemplateConfig

  /** The two global names the scripts use for the backend. */
  datatype Name = SupabaseName | SupabaseClientName

  /** What a global name denotes once the config script has run: the
      library's namespace object `window.supabase`, from which the config
      creates the client; the client it created; or nothing (reading an
      undeclared name throws). */
  datatype Target = LibraryNamespace | CreatedClient | Undeclared

  /** The places that talk to the backend. */
  datatype Site =
    | ConfigSession   // the config's `checkAuth` and auth listener
    | ConfigCart      // the config's `loadCartCount`, `addToCart` and `loadProducts`
    | AuthScript      // sign-in, sign-up, sign-out, the cart modal and the wishlist
    | AdminScript     // the admin page
    | RealtimeScript  // the live product grid

  /** The names a config binds to the client it creates. The committed
      config declares only `let supabaseClient` (set once the library is
      present); the template declares only `const supabase`. */
  function Declared(c: Config): (names: set<Name>)
    ensures SupabaseClientName in names <==> c == MainConfig
    ensures SupabaseName in names <==> c == TemplateConfig
  {
    match c
    case MainConfig => {SupabaseClientName}
    case TemplateConfig => {SupabaseName}
  }

  /** What a name denotes, given the names bound to the client: a bound
      name is the client; an unbound `supabase` falls through to the
      library's global `window.supabase`; an unbound `supabaseClient` is
      nothing. */
  function Lookup(bound: set<Name>, n: Name): (t: Target)
    ensures t == CreatedClient <==> n in bound
    ensures t == LibraryNamespace <==> n !in bound && n == SupabaseName
    ensures t == Undeclared <==> n !in bound && n == SupabaseClientName
  {
    if n in bound then CreatedClient
    else match n
      case SupabaseName => LibraryNamespace
      case SupabaseClientName => Undeclared
  }

  /** What a name denotes under a config as written. */
  function Resolve(c: Config, n: Name): (t: Target)
    ensures t == CreatedClient <==> (c == MainConfig <==> n == SupabaseClientName)
    ensures t == LibraryNamespace <==> c == MainConfig && n == SupabaseName
    ensures t == Undeclared <==> c == TemplateConfig && n == SupabaseClientName
  {
    Lookup(Declared(c), n)
  }

  /** The name each site is written with. Only the config's session code
      differs between the two configs. */
  function NameAt(c: Config, s: Site): (n: Name)
    ensures s == AdminScript || s == RealtimeScript ==> n == SupabaseClientName
    ensures s == ConfigCart || s == AuthScript ==> n == SupabaseName
    ensures s == ConfigSession ==> (n == SupabaseClientName <==> c == MainConfig)
  {
    match s
    case ConfigSession => if c == MainConfig then SupabaseClientName else SupabaseName
    case ConfigCart => SupabaseName
    case AuthScript => SupabaseName
    case AdminScript => SupabaseClientName
    case RealtimeScript => SupabaseClientName
  }

  /** What a site's calls reach, as the scripts are written. */
  function TargetAsWritten(c: Config, s: Site): (t: Target)
    ensures t == CreatedClient <==> (c == MainConfig <==> NameAt(c, s) == SupabaseClientName)
  {
    Resolve(c, NameAt(c, s))
  }

  /** Under the committed config, the cart code of the config script and all
      of the auth script query the library's namespace, not the client. */
  lemma MainConfigMissesClient()
    ensures TargetAsWritten(MainConfig, ConfigCart) == LibraryNamespace
    ensures TargetAsWritten(MainConfig, AuthScript) == LibraryNamespace
    ensures TargetAsWritten(MainConfig, ConfigSession) == CreatedClient
  {
  }

  /** Under the template config, the admin page and the live grid read a
      `supabaseClient` that nothing declares. */
  lemma TemplateConfigMissesClient()
    ensures TargetAsWritten(TemplateConfig, AdminScript) == Undeclared
    ensures TargetAsWritten(TemplateConfig, RealtimeScript) == Undeclared
    ensures TargetAsWritten(TemplateConfig, AuthScript) == CreatedClient
  {
  }

  /** Neither config lets every site reach the client. */
  lemma NoConfigServesEverySite(c: Config)
    ensures exists s :: TargetAsWritten(c, s) != CreatedClient
  {
    if c == MainConfig {
      MainConfigMissesClient();
      assert TargetAsWritten(c, AuthScript) != CreatedClient;
    } else {
      TemplateConfigMissesClient();
      assert TargetAsWritten(c, AdminScript) != CreatedClient;
    }
  }

  /** The evident intent: each config binds both names to the client it
      creates (the committed config also as `supabase`, the template also as
      `supabaseClient`), keeping the name it already binds. */
  function DeclaredFixed(c: Config): (names: set<Name>)
    ensures Declared(c) <= names
    ensures SupabaseName in names && SupabaseClientName in names
  {
    Declared(c) + {SupabaseName, SupabaseClientName}
  }

  /** What a site's calls reach once both names are bound. */
  function TargetFixed(c: Config, s: Site): Target
  {
    Lookup(DeclaredFixed(c), NameAt(c, s))
  }

  /** With both names bound, every site under either config reaches the one
      client, and a site that already reached it is unaffected. The
      storefront and admin operations of the model all talk to this client. */
  lemma EverySiteReachesClient(c: Config, s: Site)
    ensures TargetFixed(c, s) == CreatedClient
    ensures TargetAsWritten(c, s) == CreatedClient ==> TargetFixed(c, s) == TargetAsWritten(c, s)
  {
  }

  /** Whether the config script runs to its end. The committed config
      guards its use of the library and defers the init when the library is
      missing. The template calls `window.supabase.createClient` unguarded
      on its first statement, which throws when the library has not loaded,
      and the rest of the script never runs. */
  function ConfigCompletes(c: Config, libraryLoadedFirst: bool): (r: bool)
    ensures c == MainConfig ==> r
    ensures c == TemplateConfig ==> (r <==> libraryLoadedFirst)
  {
    match c
    case MainConfig => true
    case TemplateConfig => libraryLoadedFirst
  }

  /** Whether the config registers the auth listener. The template reaches
      its unconditional registration only when it runs to its end. The
      committed config runs to its end but registers only if the client
      exists when the script runs; an init deferred to the `load` event comes
      too late. Either way the listener exists exactly when the library was
      loaded before the config. */
  function ListenerRegistered(c: Config, libraryLoadedFirst: bool): (r: bool)
    ensures r ==> ConfigCompletes(c, libraryLoadedFirst)
    ensures r <==> libraryLoadedFirst
  {
    ConfigCompletes(c, libraryLoadedFirst)
      && match c
         case TemplateConfig => true
         case MainConfig => libraryLoadedFirst
  }
}
