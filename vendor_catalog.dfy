/** What the vendor dashboard does with the products it shows: the search
    filter, the stock-gated contact button, and the WhatsApp message and
    deep link it opens. */
module VendorCatalog {
  import opened Wrappers
  import Sequences
  import Text
  import UriComponent

  datatype Listing = Listing(
    id: string,
    name: string,
    hindiName: string,
    supplier: string,
    price: real,
    unit: string,
    rating: real,
    location: string,
    phone: string,
    inStock: bool,
    bulkPrice: Option<real>,
    minBulkQty: Option<nat>,
    isVerified: bool,
    freshness: string,
    bestFor: seq<string>)

  /** The search test: the lower-cased English name contains the lower-cased
      query, or the Hindi name contains the query as typed. */
  predicate Matches(p: Listing, query: string) {
    Text.Includes(Text.ToLower(p.name), Text.ToLower(query)) || Text.Includes(p.hindiName, query)
  }

  function MatchesQuery(query: string): Listing -> bool {
    (p: Listing) => Matches(p, query)
  }

  /** `filteredProducts`: the products that match the search query. */
  function Search(ps: seq<Listing>, query: string): seq<Listing> {
    Sequences.Filter(ps, MatchesQuery(query))
  }

  /** Search keeps exactly the matching products, in their original order,
      each as often as it is listed. */
  lemma SearchSpec(ps: seq<Listing>, query: string)
    ensures Sequences.SubsequenceOf(Search(ps, query), ps)
    ensures forall p :: p in Search(ps, query) <==> p in ps && Matches(p, query)
    ensures forall p :: multiset(Search(ps, query))[p] == if Matches(p, query) then multiset(ps)[p] else 0
  {
    Sequences.FilterIsSubsequence(ps, MatchesQuery(query));
    forall p ensures p in Search(ps, query) <==> p in ps && Matches(p, query) {
      Sequences.FilterMembership(ps, MatchesQuery(query), p);
    }
    Sequences.FilterCounts(ps, MatchesQuery(query));
  }

  /** The empty query shows every product. */
  lemma SearchEmptyQuery(ps: seq<Listing>)
    ensures Search(ps, "") == ps
  {
    forall p | p in ps ensures Matches(p, "") {
      Text.IncludesEmpty(p.hindiName);
    }
  }

  /** Searching the search result again with the same query changes nothing. */
  lemma SearchIdempotent(ps: seq<Listing>, query: string)
    ensures Search(Search(ps, query), query) == Search(ps, query)
  {
    Sequences.FilterIdempotent(ps, MatchesQuery(query));
  }

  /** The English-name half of the test ignores ASCII case in the query: a
      product whose name matches `query` also matches its lower-cased form. */
  lemma NameMatchIgnoresCase(p: Listing, query: string)
    requires Text.Includes(Text.ToLower(p.name), Text.ToLower(query))
    ensures Matches(p, Text.ToLower(query))
  {
    Text.ToLowerIdempotent(query);
  }

  /** The text of the pre-filled WhatsApp message. */
  function ContactMessage(p: Listing): string {
    "नमस्ते, मुझे " + p.hindiName + " (" + p.name
      + ") चाहिए। कृपया मुझसे संपर्क करें। / Hello, I need " + p.name + ". Please contact me."
  }

  /** The message names the product in Hindi and in English. */
  lemma MessageNamesProduct(p: Listing)
    ensures Text.Includes(ContactMessage(p), p.hindiName)
    ensures Text.Includes(ContactMessage(p), p.name)
  {
    var head := "नमस्ते, मुझे ";
    var middle := " (";
    var tail := ") चाहिए। कृपया मुझसे संपर्क करें। / Hello, I need " + p.name + ". Please contact me.";
    assert ContactMessage(p) == head + p.hindiName + (middle + p.name + tail);
    Text.IncludesInfix(head, p.hindiName, middle + p.name + tail);
    assert ContactMessage(p) == (head + p.hindiName + middle) + p.name + tail;
    Text.IncludesInfix(head + p.hindiName + middle, p.name, tail);
  }

  /** The deep link's fixed part: WhatsApp with India's country code 91. */
  const WhatsAppPrefix: string := "https://wa.me/91"

  /** `https://wa.me/91${phone}?text=${encodeURIComponent(message)}`. */
  function WhatsAppLink(phone: string, message: string): string {
    WhatsAppPrefix + phone + "?text=" + UriComponent.Encode(message)
  }

  /** The link is the fixed prefix, the phone, "?text=", and a query value
      that decodes back to the message and is made only of unreserved
      characters and '%' escapes, so no '&', '#', '?', '=' or space can cut
      the value short. */
  lemma WhatsAppLinkCarriesMessage(phone: string, message: string)
    ensures var head := WhatsAppPrefix + phone + "?text=";
      && |head| <= |WhatsAppLink(phone, message)|
      && WhatsAppLink(phone, message)[..|head|] == head
      && UriComponent.Decode(WhatsAppLink(phone, message)[|head|..]) == Some(message)
      && forall c :: c in WhatsAppLink(phone, message)[|head|..] ==> UriComponent.Unreserved(c) || c == '%'
  {
    var head := WhatsAppPrefix + phone + "?text=";
    var value := UriComponent.Encode(message);
    assert WhatsAppLink(phone, message)[|head|..] == value;
    UriComponent.DecodeEncode(message);
    UriComponent.EncodeAlphabet(message);
  }

  /** The link the contact handler opens for a product. */
  function ContactUrl(p: Listing): string {
    WhatsAppLink(p.phone, ContactMessage(p))
  }

  /** The contact button (its `disabled` is `!product.inStock`): the link it
      opens, or `None` when the product is out of stock. */
  function ContactAction(p: Listing): (r: Option<string>)
    ensures r.Some? <==> p.inStock
    ensures r.Some? ==> r.value == ContactUrl(p)
  {
    if p.inStock then Some(ContactUrl(p)) else None
  }
}
