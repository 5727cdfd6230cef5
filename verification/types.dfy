/** The storefront's shared records: languages, localized text, products and
    cart entries (types/index.ts). */
module Types {

  /** A value that may be missing: a failed parse, an absent storage key. */
  datatype Option<+T> = None | Some(value: T)

  /** The value if present, otherwise the fallback. */
  function OrElse<T>(o: Option<T>, fallback: T): T {
    if o.Some? then o.value else fallback
  }

  /** The three interface languages. */
  datatype Language = Ar | Fr | En

  /** The language tag as stored and as written to the document. */
  function LanguageCode(lang: Language): string {
    match lang
    case Ar => "ar"
    case Fr => "fr"
    case En => "en"
  }

  /** A string in each of the three languages; used for product names and
      descriptions and for every row of the translation table. */
  datatype LocalizedText = LocalizedText(ar: string, fr: string, en: string) {
    function In(lang: Language): string {
      match lang
      case Ar => ar
      case Fr => fr
      case En => en
    }
  }

  /** The fixed set of fragrance families. */
  datatype Category = Oriental | Floral | Woody | Citrus

  /** The tag a category carries in the catalog and in the filter buttons. */
  function CategoryCode(c: Category): string {
    match c
    case Oriental => "oriental"
    case Floral => "floral"
    case Woody => "woody"
    case Citrus => "citrus"
  }

  /** A catalog entry. Prices are whole currency units. */
  datatype Product = Product(
    id: string,
    name: LocalizedText,
    description: LocalizedText,
    price: int,
    image: string,
    category: Category)

  /** A cart line: the full product as it was when first added, and a count. */
  datatype CartItem = CartItem(product: Product, quantity: int)

  type Cart = seq<CartItem>
}
