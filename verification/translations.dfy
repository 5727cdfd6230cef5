/** Interface strings (lib/translations.ts): a table from message key to the
    text in each language, and the lookup `t` that falls back to the key. */
module Translations {
  import opened Types

  type Table = map<string, LocalizedText>

  /** `t` over an arbitrary table: the table's text when the key is present
      and its text in that language is non-empty (JavaScript's `||` treats ""
      as false); otherwise the key itself. */
  function Lookup(table: Table, key: string, lang: Language): (r: string)
    ensures key in table && table[key].In(lang) != "" ==> r == table[key].In(lang)
    ensures key !in table ==> r == key
    ensures key in table && table[key].In(lang) == "" ==> r == key
  {
    if key in table && table[key].In(lang) != "" then table[key].In(lang) else key
  }

  /** The lookup never fails and never yields an empty label for a non-empty
      key: the result is the key or a non-empty table entry. */
  lemma LookupTotal(table: Table, key: string, lang: Language)
    ensures Lookup(table, key, lang) == key ||
            (key in table && Lookup(table, key, lang) == table[key].In(lang))
    ensures key != "" ==> Lookup(table, key, lang) != ""
  {
  }

  /** The result falls back to the key exactly when the table has no
      non-empty text for it. */
  lemma LookupFallsBackIff(table: Table, key: string, lang: Language)
    requires forall k :: k in table ==> k != table[k].ar && k != table[k].fr && k != table[k].en
    ensures Lookup(table, key, lang) == key <==> key !in table || table[key].In(lang) == ""
  {
  }

  /** The storefront's table. */
  const Strings: Table := map[
      "nav.home" := LocalizedText("الرئيسية", "Accueil", "Home"),
      "nav.products" := LocalizedText("المنتجات", "Produits", "Products"),
      "nav.about" := LocalizedText("من نحن", "À propos", "About Us"),
      "nav.contact" := LocalizedText("اتصل بنا", "Contact", "Contact"),
      "nav.privacy" := LocalizedText("سياسة الخصوصية", "Confidentialité", "Privacy"),
      "nav.cart" := LocalizedText("عربة التسوق", "Panier", "Cart"),
      "hero.tagline" := LocalizedText("فن العطور", "L'Art du Parfum", "The Art of Perfume"),
      "hero.explore" := LocalizedText("استكشف المجموعة", "Explorer la Collection", "Explore Collection"),
      "product.addToCart" := LocalizedText("أضف إلى السلة", "Ajouter au Panier", "Add to Cart"),
      "product.price" := LocalizedText("السعر", "Prix", "Price"),
      "product.category" := LocalizedText("الفئة", "Catégorie", "Category"),
      "category.oriental" := LocalizedText("شرقي", "Oriental", "Oriental"),
      "category.floral" := LocalizedText("زهري", "Floral", "Floral"),
      "category.woody" := LocalizedText("خشبي", "Boisé", "Woody"),
      "category.citrus" := LocalizedText("حمضي", "Agrumes", "Citrus"),
      "cart.title" := LocalizedText("عربة التسوق", "Votre Panier", "Your Cart"),
      "cart.empty" := LocalizedText("عربة التسوق فارغة", "Votre panier est vide", "Your cart is empty"),
      "cart.quantity" := LocalizedText("الكمية", "Quantité", "Quantity"),
      "cart.remove" := LocalizedText("إزالة", "Retirer", "Remove"),
      "cart.subtotal" := LocalizedText("المجموع الفرعي", "Sous-total", "Subtotal"),
      "cart.total" := LocalizedText("المجموع", "Total", "Total"),
      "cart.checkout" := LocalizedText("إتمام الطلب", "Passer Commande", "Checkout"),
      "cart.continueShopping" := LocalizedText("متابعة التسوق", "Continuer les Achats", "Continue Shopping"),
      "checkout.title" := LocalizedText("إتمام الطلب", "Finaliser la Commande", "Complete Order"),
      "checkout.customerInfo" := LocalizedText("معلومات العميل", "Informations Client", "Customer Information"),
      "checkout.fullName" := LocalizedText("الاسم الكامل", "Nom Complet", "Full Name"),
      "checkout.email" := LocalizedText("البريد الإلكتروني", "Email", "Email"),
      "checkout.phone" := LocalizedText("رقم الهاتف", "Téléphone", "Phone Number"),
      "checkout.address" := LocalizedText("العنوان", "Adresse", "Address"),
      "checkout.paymentMethod" := LocalizedText("طريقة الدفع", "Mode de Paiement", "Payment Method"),
      "checkout.cashOnDelivery" := LocalizedText("الدفع عند الاستلام", "Paiement à la Livraison", "Cash on Delivery"),
      "checkout.placeOrder" := LocalizedText("تأكيد الطلب", "Confirmer la Commande", "Place Order"),
      "checkout.orderConfirmed" := LocalizedText("تم تأكيد طلبك!", "Commande Confirmée!", "Order Confirmed!"),
      "checkout.thankYou" := LocalizedText("شكراً لك على طلبك", "Merci pour votre commande", "Thank you for your order"),
      "checkout.orderNumber" := LocalizedText("رقم الطلب", "Numéro de Commande", "Order Number"),
      "about.title" := LocalizedText("من نحن", "À Propos de Nous", "About Us"),
      "about.description" := LocalizedText("نحن متخصصون في صناعة العطور الفاخرة التي تجمع بين التقاليد والحداثة. كل عطر هو تحفة فنية تروي قصة فريدة.", "Nous sommes spécialisés dans la création de parfums de luxe qui allient tradition et modernité. Chaque parfum est une œuvre d'art qui raconte une histoire unique.", "We specialize in crafting luxury perfumes that blend tradition with modernity. Each fragrance is a masterpiece that tells a unique story."),
      "contact.title" := LocalizedText("اتصل بنا", "Contactez-nous", "Contact Us"),
      "contact.name" := LocalizedText("الاسم", "Nom", "Name"),
      "contact.message" := LocalizedText("الرسالة", "Message", "Message"),
      "contact.send" := LocalizedText("إرسال", "Envoyer", "Send"),
      "footer.description" := LocalizedText("عطور فاخرة تجمع بين الفن والأناقة", "Parfums de luxe alliant art et élégance", "Luxury perfumes combining art and elegance"),
      "footer.quickLinks" := LocalizedText("روابط سريعة", "Liens Rapides", "Quick Links"),
      "footer.followUs" := LocalizedText("تابعنا", "Suivez-nous", "Follow Us"),
      "footer.rights" := LocalizedText("جميع الحقوق محفوظة", "Tous droits réservés", "All rights reserved"),
      "common.currency" := LocalizedText("د.م.", "DH", "MAD"),
      "common.loading" := LocalizedText("جاري التحميل...", "Chargement...", "Loading..."),
      "common.error" := LocalizedText("حدث خطأ", "Une erreur s'est produite", "An error occurred")
    ]

  /** `t(key, lang)`: the storefront's text for a known key, the key itself
      for an unknown one; never an empty label for a non-empty key. */
  function T(key: string, lang: Language): (r: string)
    ensures key in Strings && Strings[key].In(lang) != "" ==> r == Strings[key].In(lang)
    ensures key !in Strings ==> r == key
    ensures r == key || (key in Strings && r == Strings[key].In(lang))
    ensures key != "" ==> r != ""
  {
    LookupTotal(Strings, key, lang);
    Lookup(Strings, key, lang)
  }

  /** The key a category's filter button looks up. */
  function CategoryKey(c: Category): string {
    "category." + CategoryCode(c)
  }

  /** The four category rows of the table. */
  lemma CategoryRows()
    ensures "category.oriental" in Strings && "category.floral" in Strings
    ensures "category.woody" in Strings && "category.citrus" in Strings
    ensures Strings["category.oriental"] == LocalizedText("شرقي", "Oriental", "Oriental")
    ensures Strings["category.floral"] == LocalizedText("زهري", "Floral", "Floral")
    ensures Strings["category.woody"] == LocalizedText("خشبي", "Boisé", "Woody")
    ensures Strings["category.citrus"] == LocalizedText("حمضي", "Agrumes", "Citrus")
  {
  }

  /** Every category label is translated in every language: the lookup
      returns a table entry, never the key. */
  lemma CategoryLabelsResolve(c: Category, lang: Language)
    ensures CategoryKey(c) in Strings
    ensures T(CategoryKey(c), lang) == Strings[CategoryKey(c)].In(lang)
    ensures T(CategoryKey(c), lang) != CategoryKey(c)
  {
    CategoryRows();
    var key := CategoryKey(c);
    match c
    case Oriental => assert key == "category.oriental";
    case Floral => assert key == "category.floral";
    case Woody => assert key == "category.woody";
    case Citrus => assert key == "category.citrus";
  }

  /** The currency label: MAD in English, DH in French. */
  lemma CurrencyLabels()
    ensures T("common.currency", En) == "MAD"
    ensures T("common.currency", Fr) == "DH"
    ensures T("common.currency", Ar) == "د.م."
  {
  }
}
