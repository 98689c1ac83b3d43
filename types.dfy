/** The record shapes of the application (types.ts), as values. */
module Types {
  import opened Wrappers

  datatype Language = En | Fr | Ar

  datatype User = User(id: string, name: string, email: string)

  datatype Organization = Organization(id: string, ownerId: string, name: string)

  /** A stored listing; `views` may be missing from a row, hence `Option`. Prices are whole numbers here. */
  datatype ProductListing = ProductListing(
    id: string,
    sellerId: string,
    sellerName: string,
    organizationId: Option<string>,
    title: string,
    description: string,
    price: int,
    currency: string,
    category: string,
    imageUrl: string,
    videoUrl: Option<string>,
    views: Option<int>,
    createdAt: string)

  /** The seller's in-progress listing metadata. */
  datatype ProductDraft = ProductDraft(
    category: string,
    title: string,
    description: string,
    price: int,
    tags: seq<string>)

  datatype Role = UserRole | ModelRole

  /** A chat bubble; a missing `isThinking` is `false`. Timestamps are not modelled. */
  datatype ChatMessage = ChatMessage(id: string, role: Role, text: string, isThinking: bool)

  /** JavaScript truthiness of an optional string: present and non-empty. */
  predicate Present(o: Option<string>) {
    o.Some? && o.value != ""
  }

  /** `s || undefined`: an empty string becomes absent. */
  function OrUndefined(s: string): (r: Option<string>)
    ensures r.None? <==> s == ""
    ensures r.Some? ==> r.value == s
  {
    if s == "" then None else Some(s)
  }
}
