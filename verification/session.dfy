/** The shop provider's session state (context/ShopContext.tsx): the language
    and the cart, their one-time load from client storage on mount, and the
    write-back that follows every change once loading is done.

    Client storage is an abstract string-to-string map. JSON is a pair of
    functions supplied by the caller: `encode` stands for `JSON.stringify`
    and `decode` for `JSON.parse`, whose exception becomes `None`. */
module Session {
  import opened Types
  import ShopCart

  /** The storage keys the provider reads and writes. */
  const CartKey: string := "coding0101-cart"
  const LanguageKey: string := "coding0101-language"

  type Storage = map<string, string>

  datatype CartCodec = CartCodec(encode: Cart -> string, decode: string -> Option<Cart>)

  /** The document's text direction. */
  datatype Direction = Ltr | Rtl

  /** Arabic is written right to left, the other two left to right. */
  function TextDirection(lang: Language): (d: Direction)
    ensures d == Rtl <==> lang == Ar
  {
    if lang == Ar then Rtl else Ltr
  }

  /** The whitelist a stored language tag must pass. */
  function ParseLanguage(s: string): (r: Option<Language>)
    ensures r.Some? <==> s == "ar" || s == "fr" || s == "en"
    ensures r.Some? ==> LanguageCode(r.value) == s
  {
    if s == "ar" then Some(Ar)
    else if s == "fr" then Some(Fr)
    else if s == "en" then Some(En)
    else None
  }

  /** Every language survives being written as its tag and read back. */
  lemma LanguageRoundTrip(lang: Language)
    ensures ParseLanguage(LanguageCode(lang)) == Some(lang)
    ensures LanguageCode(lang) != ""
  {
  }

  /** `localStorage.getItem`: the stored string, or null. */
  function GetItem(storage: Storage, key: string): Option<string> {
    if key in storage then Some(storage[key]) else None
  }

  /** JavaScript truthiness of a `getItem` result: null and "" are falsy. */
  predicate Truthy(v: Option<string>) {
    v.Some? && v.value != ""
  }

  datatype Session = Session(language: Language, cart: Cart, initialized: bool, storage: Storage)

  /** The first render: default language, empty cart, nothing loaded yet. */
  function Mount(storage: Storage): (r: Session)
    ensures !r.initialized && r.storage == storage
    ensures r.language == En && TextDirection(r.language) == Ltr
    ensures r.cart == [] && ShopCart.CartTotal(r.cart) == 0 && ShopCart.CartItemsCount(r.cart) == 0
  {
    Session(En, [], false, storage)
  }

  /** Storage holds the current cart and language. Only promised once the
      session is initialized; before that nothing is written. */
  predicate InSync(s: Session, codec: CartCodec) {
    s.initialized ==>
      GetItem(s.storage, CartKey) == Some(codec.encode(s.cart)) &&
      GetItem(s.storage, LanguageKey) == Some(LanguageCode(s.language))
  }

  /** The mount effect: read both keys, adopt a parseable cart and a
      whitelisted language, mark the session initialized. The two save
      effects then run because `isInitialized` changed, writing both keys. */
  function Load(s: Session, codec: CartCodec): (r: Session)
    ensures r.initialized && InSync(r, codec)
    ensures Truthy(GetItem(s.storage, CartKey)) && codec.decode(s.storage[CartKey]).Some? ==>
              r.cart == codec.decode(s.storage[CartKey]).value
    ensures !(Truthy(GetItem(s.storage, CartKey)) && codec.decode(s.storage[CartKey]).Some?) ==>
              r.cart == s.cart
    ensures LanguageKey in s.storage && ParseLanguage(s.storage[LanguageKey]).Some? ==>
              r.language == ParseLanguage(s.storage[LanguageKey]).value
    ensures !(LanguageKey in s.storage && ParseLanguage(s.storage[LanguageKey]).Some?) ==>
              r.language == s.language
    ensures forall key :: key in s.storage && key != CartKey && key != LanguageKey ==>
              key in r.storage && r.storage[key] == s.storage[key]
    ensures r.storage.Keys == s.storage.Keys + {CartKey, LanguageKey}
  {
    var savedCart := GetItem(s.storage, CartKey);
    var savedLang := GetItem(s.storage, LanguageKey);
    var cart :=
      if Truthy(savedCart) then OrElse(codec.decode(savedCart.value), s.cart) else s.cart;
    var language :=
      if Truthy(savedLang) then OrElse(ParseLanguage(savedLang.value), s.language) else s.language;
    Session(language, cart, true,
            s.storage[CartKey := codec.encode(cart)][LanguageKey := LanguageCode(language)])
  }

  /** Opening the shop: the first render followed by the mount effect. */
  function Startup(storage: Storage, codec: CartCodec): (r: Session)
    ensures r.initialized && InSync(r, codec)
    ensures r.language ==
              (if LanguageKey in storage then OrElse(ParseLanguage(storage[LanguageKey]), En) else En)
    ensures r.cart ==
              (if CartKey in storage && storage[CartKey] != "" && codec.decode(storage[CartKey]).Some?
               then codec.decode(storage[CartKey]).value else [])
    ensures r.storage.Keys == storage.Keys + {CartKey, LanguageKey}
    ensures forall key :: key in storage && key != CartKey && key != LanguageKey ==>
              r.storage[key] == storage[key]
  {
    Load(Mount(storage), codec)
  }

  /** A stored language outside the whitelist leaves the default English. */
  lemma StartupLanguage(storage: Storage, codec: CartCodec)
    ensures LanguageKey !in storage ==> Startup(storage, codec).language == En
    ensures LanguageKey in storage ==>
              Startup(storage, codec).language == OrElse(ParseLanguage(storage[LanguageKey]), En)
    ensures Startup(storage, codec).language != En ==>
              LanguageKey in storage && (storage[LanguageKey] == "ar" || storage[LanguageKey] == "fr")
  {
  }

  /** A missing, empty or unparseable stored cart leaves the cart empty, and
      the empty cart is then written over it. */
  lemma StartupMalformedCart(storage: Storage, codec: CartCodec)
    requires CartKey !in storage || storage[CartKey] == "" || codec.decode(storage[CartKey]).None?
    ensures Startup(storage, codec).cart == []
    ensures Startup(storage, codec).storage[CartKey] == codec.encode([])
  {
  }

  /** The operations the provider exposes, as seen by the session. */
  datatype Action =
    | SetLanguage(lang: Language)
    | AddToCart(product: Product)
    | RemoveFromCart(id: string)
    | UpdateQuantity(id: string, quantity: int)
    | ClearCart

  /** The cart an action leaves behind. */
  function NextCart(cart: Cart, a: Action): Cart {
    match a
    case SetLanguage(_) => cart
    case AddToCart(p) => ShopCart.AddToCart(cart, p)
    case RemoveFromCart(id) => ShopCart.RemoveFromCart(cart, id)
    case UpdateQuantity(id, q) => ShopCart.UpdateQuantity(cart, id, q)
    case ClearCart => ShopCart.ClearCart()
  }

  /** One action: update the in-memory state, then run the save effects whose
      dependencies changed; they write only once the session is initialized.
      Setting the language it already has is a React bail-out with no effect;
      every cart action produces a fresh array, so the cart effect always runs. */
  function Apply(s: Session, a: Action, codec: CartCodec): (r: Session)
    ensures r.initialized == s.initialized
    ensures r.cart == NextCart(s.cart, a)
    ensures r.language == (if a.SetLanguage? then a.lang else s.language)
    ensures !s.initialized ==> r.storage == s.storage
    ensures InSync(s, codec) ==> InSync(r, codec)
    ensures forall key :: key in s.storage && key != CartKey && key != LanguageKey ==>
              key in r.storage && r.storage[key] == s.storage[key]
    ensures r.storage.Keys <= s.storage.Keys + {CartKey, LanguageKey}
  {
    match a
    case SetLanguage(lang) =>
      if lang == s.language then s
      else
        var storage := if s.initialized then s.storage[LanguageKey := LanguageCode(lang)] else s.storage;
        s.(language := lang, storage := storage)
    case _ =>
      var cart := NextCart(s.cart, a);
      var storage := if s.initialized then s.storage[CartKey := codec.encode(cart)] else s.storage;
      s.(cart := cart, storage := storage)
  }

  /** A run of actions. */
  function ApplyAll(s: Session, actions: seq<Action>, codec: CartCodec): Session
    decreases |actions|
  {
    if actions == [] then s else ApplyAll(Apply(s, actions[0], codec), actions[1..], codec)
  }

  /** Before initialization no action writes anything; afterwards storage
      always holds the current cart and language. */
  lemma {:induction false} ApplyAllKeepsStorage(s: Session, actions: seq<Action>, codec: CartCodec)
    ensures !s.initialized ==> ApplyAll(s, actions, codec).storage == s.storage
    ensures InSync(s, codec) ==> InSync(ApplyAll(s, actions, codec), codec)
    ensures ApplyAll(s, actions, codec).initialized == s.initialized
    decreases |actions|
  {
    if actions != [] {
      ApplyAllKeepsStorage(Apply(s, actions[0], codec), actions[1..], codec);
    }
  }

  /** Reloading restores the session exactly: once initialized, storage holds
      the current state, so a fresh start from that storage yields the same
      language, the same cart and the same storage, provided the cart's JSON
      form parses back to the cart. */
  lemma ReloadRestores(s: Session, codec: CartCodec)
    requires s.initialized && InSync(s, codec)
    requires codec.decode(codec.encode(s.cart)) == Some(s.cart)
    requires codec.encode(s.cart) != ""
    ensures Startup(s.storage, codec) == s
  {
    var r := Startup(s.storage, codec);
    LanguageRoundTrip(s.language);
    assert r.cart == s.cart;
    assert r.language == s.language;
    assert r.storage == s.storage;
  }

  /** A cart that starts well formed (no duplicate ids, positive
      quantities) stays well formed through any run of actions. The loaded
      cart is not checked, so this is promised only from such a start, for
      instance the empty cart of a first visit. */
  lemma {:induction false} SessionKeepsCartWellFormed(s: Session, actions: seq<Action>, codec: CartCodec)
    requires ShopCart.WellFormed(s.cart)
    ensures ShopCart.WellFormed(ApplyAll(s, actions, codec).cart)
    decreases |actions|
  {
    if actions != [] {
      var next := Apply(s, actions[0], codec);
      NextCartWellFormed(s.cart, actions[0]);
      SessionKeepsCartWellFormed(next, actions[1..], codec);
    }
  }

  /** Every single action keeps a well-formed cart well formed. */
  lemma NextCartWellFormed(cart: Cart, a: Action)
    requires ShopCart.WellFormed(cart)
    ensures ShopCart.WellFormed(NextCart(cart, a))
  {
    match a {
      case SetLanguage(_) =>
      case AddToCart(p) => ShopCart.AddPreservesWellFormed(cart, p);
      case RemoveFromCart(id) => ShopCart.RemovePreservesWellFormed(cart, id);
      case UpdateQuantity(id, q) => ShopCart.UpdatePreservesWellFormed(cart, id, q);
      case ClearCart =>
    }
  }
}
