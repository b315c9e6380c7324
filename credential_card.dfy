/** One credential card: category badge colour, website link, password mask
    and reveal toggle, and the optional notes line. */
module Card {
  import opened Strings
  import opened Vault

  const SocialClass: string := "bg-blue-500/10 text-blue-500 border-blue-500/20"
  const WorkClass: string := "bg-green-500/10 text-green-500 border-green-500/20"
  const FinanceClass: string := "bg-yellow-500/10 text-yellow-500 border-yellow-500/20"
  const GeneralClass: string := "bg-purple-500/10 text-purple-500 border-purple-500/20"

  /** The `colors` record's own entries. */
  const ColorClasses: map<string, string> :=
    map["social" := SocialClass, "work" := WorkClass, "finance" := FinanceClass, "general" := GeneralClass]

  // ---------------------------------------------------------------------------
  // `colors[category] || colors.general` as JavaScript evaluates it on an
  // object literal: a key the literal does not define is looked up on
  // Object.prototype before it comes out undefined.

  /** A value read off the `colors` object. */
  datatype JsValue = JsString(s: string) | JsFunction(name: string) | JsObject | JsUndefined

  predicate Truthy(v: JsValue) {
    match v
    case JsString(s) => s != ""
    case JsFunction(_) => true
    case JsObject => true
    case JsUndefined => false
  }

  /** The methods every object literal inherits from Object.prototype. */
  const InheritedMethods: set<string> := {
    "constructor", "hasOwnProperty", "isPrototypeOf", "propertyIsEnumerable",
    "toLocaleString", "toString", "valueOf",
    "__defineGetter__", "__defineSetter__", "__lookupGetter__", "__lookupSetter__"}

  /** Every key the literal answers without defining it itself. */
  const InheritedKeys: set<string> := InheritedMethods + {"__proto__"}

  /** `colors[key]`. */
  function ColorsProperty(key: string): JsValue {
    if key in ColorClasses then JsString(ColorClasses[key])
    else if key in InheritedMethods then JsFunction(key)
    else if key == "__proto__" then JsObject
    else JsUndefined
  }

  /** `getCategoryColor` exactly as written. */
  function CategoryColorAsWritten(category: string): (r: JsValue)
    ensures category in ColorClasses ==> r == JsString(ColorClasses[category])
    ensures category !in ColorClasses && category !in InheritedKeys ==> r == JsString(GeneralClass)
  {
    var v := ColorsProperty(category);
    if Truthy(v) then v else ColorsProperty("general")
  }

  /** An inherited key such as "constructor" is truthy, so it escapes the
      fallback and the badge's class becomes a function, not a class string. */
  lemma InheritedKeyEscapesFallback()
    ensures CategoryColorAsWritten("constructor") == JsFunction("constructor")
    ensures !CategoryColorAsWritten("constructor").JsString?
  {
    assert "constructor" !in ColorClasses;
  }

  // ---------------------------------------------------------------------------
  // The intended lookup: own entries only, anything else falls back to general.

  /** `getCategoryColor`: the listed class for the four categories, the
      general class for everything else. */
  function CategoryColor(category: string): (r: string)
    ensures category == "social" ==> r == SocialClass
    ensures category == "work" ==> r == WorkClass
    ensures category == "finance" ==> r == FinanceClass
    ensures category == "general" ==> r == GeneralClass
    ensures category !in Categories ==> r == GeneralClass
  {
    if category in ColorClasses then ColorClasses[category] else GeneralClass
  }

  /** Outside the inherited keys, the code as written and the intended lookup agree. */
  lemma CategoryColorMatchesAsWritten(category: string)
    requires category !in InheritedKeys
    ensures CategoryColorAsWritten(category) == JsString(CategoryColor(category))
  {
    assert ColorClasses.Keys == Categories;
  }

  // ---------------------------------------------------------------------------

  /** The link target: a website already starting with "http" is kept,
      anything else gets "https://" in front. */
  function WebsiteHref(website: string): (href: string)
    ensures StartsWith(href, "http")
    ensures StartsWith(website, "http") ==> href == website
    ensures !StartsWith(website, "http") ==> href == "https://" + website
  {
    if StartsWith(website, "http") then website else "https://" + website
  }

  /** Normalising an href again changes nothing. */
  lemma WebsiteHrefIdempotent(website: string)
    ensures WebsiteHref(WebsiteHref(website)) == WebsiteHref(website)
  {
  }

  /** The password placeholder: eight bullets. */
  const Mask: string := "\U{2022}\U{2022}\U{2022}\U{2022}\U{2022}\U{2022}\U{2022}\U{2022}"

  /** The password line: the password when shown, the fixed mask otherwise. */
  function PasswordText(showPassword: bool, password: string): (r: string)
    ensures showPassword ==> r == password
    ensures !showPassword ==> r == Mask && |r| == 8
  {
    if showPassword then password else Mask
  }

  /** The masked line says nothing about the password, not even its length. */
  lemma MaskHidesPassword(p: string, q: string)
    ensures PasswordText(false, p) == PasswordText(false, q)
  {
  }

  datatype Link = Link(href: string, text: string)

  /** What a card shows for one credential. */
  datatype Face = Face(
    title: string,
    badgeClass: string,
    badgeText: string,
    link: Option<Link>,
    username: string,
    passwordText: string,
    notes: Option<string>)

  function CardFace(c: Credential, showPassword: bool): (f: Face)
    ensures f.title == c.title && f.username == c.username && f.badgeText == c.category
    ensures f.badgeClass == CategoryColor(c.category)
    ensures f.link.Some? <==> c.website != ""
    ensures f.link.Some? ==> f.link.value == Link(WebsiteHref(c.website), c.website)
    ensures f.link.Some? ==> StartsWith(f.link.value.href, "http")
    ensures f.notes.Some? <==> c.notes != ""
    ensures f.notes.Some? ==> f.notes.value == c.notes
    ensures f.passwordText == PasswordText(showPassword, c.password)
  {
    Face(
      c.title,
      CategoryColor(c.category),
      c.category,
      if c.website != "" then Some(Link(WebsiteHref(c.website), c.website)) else None,
      c.username,
      PasswordText(showPassword, c.password),
      if c.notes != "" then Some(c.notes) else None)
  }

  class CredentialCard {
    /** The `credential` prop. */
    var credential: Credential
    var showPassword: bool
    var isEditOpen: bool

    /** A fresh card: password hidden, edit modal closed. */
    constructor (credential: Credential)
      ensures this.credential == credential
      ensures !showPassword && !isEditOpen
    {
      this.credential := credential;
      showPassword, isEditOpen := false, false;
    }

    function View(): (f: Face)
      reads this
      ensures showPassword ==> f.passwordText == credential.password
      ensures !showPassword ==> f.passwordText == Mask
    {
      CardFace(credential, showPassword)
    }

    /** A re-render of the same card (same `key`) with a refetched
        credential: the props change, the local state is kept. */
    method ReceiveCredential(credential: Credential)
      modifies this`credential
      ensures this.credential == credential
    {
      this.credential := credential;
    }

    /** The eye button. */
    method TogglePassword()
      modifies this`showPassword
      ensures showPassword == !old(showPassword)
    {
      showPassword := !showPassword;
    }

    /** The edit button (true) and the edit modal's `onOpenChange`. */
    method SetEditOpen(open: bool)
      modifies this`isEditOpen
      ensures isEditOpen == open
    {
      isEditOpen := open;
    }
  }

  /** Two presses of the eye button restore what the card shows. */
  method ToggleTwiceRestores(card: CredentialCard)
    modifies card
    ensures card.showPassword == old(card.showPassword)
    ensures card.View() == old(card.View())
  {
    card.TogglePassword();
    card.TogglePassword();
  }
}
