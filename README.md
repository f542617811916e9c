# CheddarGetter client: request paths, error check and response normalization

This project models the Ruby client for the CheddarGetter subscription-billing
service (`lib/cheddargetter.rb`). It covers the part of the client that shapes
requests and replies:

- the path of every public operation, with the product code and the caller's
  identifiers inserted verbatim, appended to `https://cheddargetter.com/xml`;
- the POST bodies: the caller's attributes as given, or `{"quantity" => n}`
  with `n` defaulting to 1 for `add_item` and `remove_item`;
- the error check in `request`: a hash reply with a truthy `error` entry
  raises `CheddarGetter::Error` carrying that entry, and any other hash reply
  comes back unchanged; a text reply is indexed by `String#[]`, so it raises
  exactly when it contains "error"; nil and array replies raise Ruby errors;
- `normalize`, which gives `[]` when the parent node is missing, the parent's
  child entry as it is when the parent is a hash, and raises TypeError when the
  parent is an array;
- `normalize_collection`, which always gives an array and wraps anything that
  is not one (nil included) in a one-element array;
- the tolerance in `customers`: an error whose message contains
  "no customers found", in any letter case, becomes `[]`, and every other error
  is raised again.

The HTTP library that sends the request and parses the XML reply cannot be
seen, so each operation takes it as a parameter `transport: HttpRequest ->
Value`. An operation's result is stated in terms of what `transport` answers
for the exact request the operation builds.

Files:

- `text.dfy` (module `Text`): ASCII case folding, substring search, and
  slash-separated paths with their read-back (`Segments`).
- `parsed.dfy` (module `Parsed`): the parsed reply as a Ruby value (`Nil`,
  `Str`, `Hash`, `Array`) and Ruby's `receiver[key]` on it.
- `cheddar.dfy` (module `Cheddar`): the request, the `request` error check,
  `normalize`, `normalize_collection`, the `customers` tolerance predicate, and
  the class `CheddarGetter` with its one immutable field `productCode`, the
  path of every operation, every operation, and the lemmas.

Design choices:

- The parsed reply is a Ruby value in which nil is a value of its own. Ruby's
  `Hash#[]` answers nil for a missing key and for a key bound to nil alike, and
  `normalize_collection` can answer `[nil]`, so absence cannot be kept outside
  the tree.
- `receiver[key]` follows Ruby for every kind of value: a hash looks the key
  up; a string answers the key when it occurs in the string and nil when it
  does not (`String#[]`); nil raises `NoMethodError`; an array raises
  `TypeError`. These Ruby exceptions are `RubyError` in the model. They are
  not `CheddarGetter::Error`, so `customers` does not rescue them.
- Errors are a `Result` datatype. `RemoteError(entry)` is the source's
  `CheddarGetter::Error`.

Three behaviours of the code that a reader might not expect:

- When the parent node is present but has no matching child, a reader might
  expect `[]` from `plans` and `customers`. The code answers `[nil]`, as
  `MissingChildIsWrappedNil` states.
- `update_customer` always posts to `customers/edit`.
- `delete_customer` and `delete_all_customers` answer the raw reply after the
  error check.

## Model

| member | source | states |
|---|---|---|
| `Parsed.At` | lib/cheddargetter.rb:141-142 | `receiver[key]`: a hash answers the key's value or nil; a string answers the key exactly when the key occurs in it; nil raises NoMethodError; an array raises TypeError |
| `Cheddar.Outgoing` | lib/cheddargetter.rb:134 | the request URL is `https://cheddargetter.com/xml` followed by the path; the verb and body are passed through |
| `Cheddar.Request` | lib/cheddargetter.rb:133-138 | for a hash reply, the call fails exactly when the `error` entry is truthy, and the error carries exactly that entry; otherwise it answers the reply unchanged; a text reply fails exactly when it contains "error", and then carries the text "error" (Ruby's `String#[]`); nil and array replies raise Ruby errors |
| `Cheddar.Normalize` | lib/cheddargetter.rb:140-143 | a missing or nil parent gives `[]` whatever the child key is; a hash parent gives exactly its child entry (nil when absent); an array parent raises TypeError; a text parent gives the child key when it occurs in the text and nil otherwise; a nil or array reply raises NoMethodError or TypeError; it never raises `CheddarGetter::Error` |
| `Cheddar.Wrap` | lib/cheddargetter.rb:147 | the wrapping step always answers an array |
| `Cheddar.WrapIdempotent` | lib/cheddargetter.rb:147 | wrapping twice equals wrapping once; an array is kept as it is; any other value `v` becomes `[v]` |
| `Cheddar.NormalizeCollection` | lib/cheddargetter.rb:145-149 | always an array on success; fails exactly when `normalize` fails, with the same error; an array from `normalize` comes back unchanged (same elements, same order); any other value `v`, nil included, comes back as `[v]` |
| `Cheddar.NoCustomersFound` | lib/cheddargetter.rb:35 | the `=~ /no customers found/i` test holds exactly when "no customers found" occurs at some offset of the lower-cased message |
| `Cheddar.Message` | lib/cheddargetter.rb:35 | `e.message` is the error entry's text when the entry is text, and the entry's `to_s` rendering otherwise |
| `Cheddar.CaseInsensitive` | lib/cheddargetter.rb:35 | for every message, the test answers the same for the message and for its lower-cased form |
| `Cheddar.ServiceWordingMatches` | lib/cheddargetter.rb:34-36 | "Bad request: No customers found" is recognised |
| `Cheddar.UpperCaseWordingMatches` | lib/cheddargetter.rb:35 | the all-capitals wording "NO CUSTOMERS FOUND" is recognised |
| `Cheddar.OtherWordingDoesNotMatch` | lib/cheddargetter.rb:35-38 | "bad code" and "No customer found" are not recognised |
| `Cheddar.QuantityBody` | lib/cheddargetter.rb:114 | the item body has the single key `quantity`, bound to the quantity given |
| `Text.Fold` | lib/cheddargetter.rb:35 | upper-case ASCII letters fold to their lower-case letters; every other character is unchanged |
| `Text.Lower` | lib/cheddargetter.rb:35 | lower-casing keeps the length and folds each character |
| `Text.ContainsIffOccurs` | lib/cheddargetter.rb:35 | the left-to-right substring search succeeds exactly when the pattern occurs at some offset |
| `Text.SegmentsOfPath` | lib/cheddargetter.rb:18-121 | reading a path back gives exactly its segments when no segment contains '/' |
| `Cheddar.CheddarGetter.constructor` | lib/cheddargetter.rb:9-12 | the instance keeps the product code it is given |
| `Cheddar.CheddarGetter.PlansPath` | lib/cheddargetter.rb:19 | the path is the segments `plans/get/productCode/{product}` |
| `Cheddar.CheddarGetter.PlanPath` | lib/cheddargetter.rb:27 | the path is the segments `plans/get/productCode/{product}/code/{plan}` |
| `Cheddar.CheddarGetter.CustomersPath` | lib/cheddargetter.rb:32 | the path is the segments `customers/get/productCode/{product}` |
| `Cheddar.CheddarGetter.CustomerPath` | lib/cheddargetter.rb:43 | the path is the segments `customers/get/productCode/{product}/code/{customer}` |
| `Cheddar.CheddarGetter.CreateCustomerPath` | lib/cheddargetter.rb:67 | the path is the segments `customers/new/productCode/{product}` |
| `Cheddar.CheddarGetter.UpdateCustomerPath` | lib/cheddargetter.rb:76 | the path is the segments `customers/edit/productCode/{product}/code/{customer}` |
| `Cheddar.CheddarGetter.CancelSubscriptionPath` | lib/cheddargetter.rb:84 | the path is the segments `customers/cancel/productCode/{product}/code/{customer}` |
| `Cheddar.CheddarGetter.UpdateSubscriptionPath` | lib/cheddargetter.rb:101 | the path is the segments `customers/edit-subscription/productCode/{product}/code/{customer}` |
| `Cheddar.CheddarGetter.DeleteAllCustomersPath` | lib/cheddargetter.rb:106 | the path is the segments `customers/delete-all/confirm/1/productCode/{product}` |
| `Cheddar.CheddarGetter.DeleteCustomerPath` | lib/cheddargetter.rb:110 | the path is the segments `customers/delete/productCode/{product}/code/{customer}` |
| `Cheddar.CheddarGetter.AddItemPath` | lib/cheddargetter.rb:114 | the path is the segments `customers/add-item-quantity/productCode/{product}/code/{customer}/itemCode/{item}` |
| `Cheddar.CheddarGetter.RemoveItemPath` | lib/cheddargetter.rb:119 | the path is the segments `customers/remove-item-quantity/productCode/{product}/code/{customer}/itemCode/{item}` |
| `Cheddar.CheddarGetter.Plans` | lib/cheddargetter.rb:18-21 | always an array on success; for a hash reply to GET of the plans path: a truthy error entry is raised, a missing `plans` gives `[]`, an array of plans comes back unchanged, and a single plan (or nil) comes back as a one-element array; an array `plans` node raises TypeError and a text one follows `String#[]`, wrapped; a text reply is indexed the same way by `String#[]`, and raises when it contains "error"; nil and array replies raise NoMethodError and TypeError |
| `Cheddar.CheddarGetter.Plan` | lib/cheddargetter.rb:26-29 | for a hash reply to GET of the plan path: a truthy error entry is raised, a missing `plans` gives `[]`, a hash `plans` node gives exactly its `plan` entry; an array node raises TypeError; a text node gives "plan" when that occurs in it and nil otherwise; a text reply is indexed the same way by `String#[]`, and raises when it contains "error"; nil and array replies raise NoMethodError and TypeError |
| `Cheddar.CheddarGetter.Customers` | lib/cheddargetter.rb:31-40 | always an array on success; with no error entry it is the list of `customer` entries as for `plans`; with an error entry it answers `[]` exactly when the message reports no customers, and otherwise raises that same entry; a successful reply gives exactly `normalize_collection`; Ruby errors are raised unchanged; a text reply is listed as for `plans`, and one containing "error" raises the entry "error", whose message never reports missing customers |
| `Cheddar.CheddarGetter.Customer` | lib/cheddargetter.rb:42-45 | for a hash reply to GET of the customer path: a truthy error entry is raised, a missing `customers` gives `[]`, a hash `customers` node gives exactly its `customer` entry, an array node raises TypeError, and a text node gives "customer" when that occurs in it and nil otherwise; a text reply is indexed the same way, and raises when it contains "error"; nil and array replies raise NoMethodError and TypeError |
| `Cheddar.CheddarGetter.CreateCustomer` | lib/cheddargetter.rb:66-69 | the reply to POST of the new-customer path with the caller's attributes as the body is shaped as for `customer` |
| `Cheddar.CheddarGetter.UpdateCustomer` | lib/cheddargetter.rb:75-78 | the reply to POST of the edit path with the attributes as the body is shaped as for `customer` |
| `Cheddar.CheddarGetter.CancelSubscription` | lib/cheddargetter.rb:83-86 | the reply to POST of the cancel path without a body is shaped as for `customer` |
| `Cheddar.CheddarGetter.UpdateSubscription` | lib/cheddargetter.rb:100-103 | the reply to POST of the edit-subscription path with the attributes as the body is shaped as for `customer` |
| `Cheddar.CheddarGetter.DeleteAllCustomers` | lib/cheddargetter.rb:105-107 | for a hash reply to POST of the delete-all path: the error entry is raised if truthy, otherwise the reply itself is answered |
| `Cheddar.CheddarGetter.DeleteCustomer` | lib/cheddargetter.rb:109-111 | for a hash reply to POST of the delete path: the error entry is raised if truthy, otherwise the reply itself is answered |
| `Cheddar.CheddarGetter.AddItem` | lib/cheddargetter.rb:113-116 | the reply to POST of the add-item path with body `{"quantity" => n}` (n defaults to 1) is shaped as for `customer` |
| `Cheddar.CheddarGetter.RemoveItem` | lib/cheddargetter.rb:118-121 | the reply to POST of the remove-item path with body `{"quantity" => n}` (n defaults to 1) is shaped as for `customer` |
| `Cheddar.CheddarGetter.ListAndRecordAgree` | lib/cheddargetter.rb:18-29 | against the same reply with one plan, `plan` answers that record and `plans` answers it as a one-element list; several plans come back all, in order |
| `Cheddar.CheddarGetter.MissingCollectionIsEmpty` | lib/cheddargetter.rb:141 | when the reply to each operation's own request is a hash whose `error` entry and collection node are absent or nil, whatever else it holds, `plans`, `plan`, `customers` and `customer` all answer `[]` |
| `Cheddar.CheddarGetter.MissingChildIsWrappedNil` | lib/cheddargetter.rb:141-148 | a `plans` node without a `plan` child gives `[nil]` |
| `Cheddar.CheddarGetter.RemoteErrorFailsQueries` | lib/cheddargetter.rb:31-40 | an error reply with text `m` fails `plans`, `plan` and `customer` with exactly `m`; `customers` answers `[]` when `m` reports no customers and fails with exactly `m` otherwise |
| `Cheddar.CheddarGetter.RemoteErrorFailsUpdates` | lib/cheddargetter.rb:133-138 | an error reply with text `m` fails create, update, cancel and update-subscription with exactly `m` |
| `Cheddar.CheddarGetter.RemoteErrorFailsDeletesAndItems` | lib/cheddargetter.rb:133-138 | an error reply with text `m` fails both deletions and both item changes with exactly `m` |
| `Cheddar.CheddarGetter.TwoPlansReply` | lib/cheddargetter.rb:18-21 | the reply `<plans><plan>plan1</plan><plan>plan2</plan></plans>` lists `["plan1", "plan2"]` |
| `Cheddar.CheddarGetter.TextReplyListsNoPlans` | lib/cheddargetter.rb:18-21 | a text reply "Error" passes the case-sensitive error check and, having no `plans` in it, lists no plans |
| `Cheddar.CheddarGetter.TextErrorPageFailsCustomers` | lib/cheddargetter.rb:31-40 | the text reply "an error page" makes `customers` raise the error "error" instead of answering `[]` |
| `Cheddar.CheddarGetter.BadPlanCodeReply` | lib/cheddargetter.rb:26-29 | the reply `<error>bad code</error>` to a plan lookup fails with "bad code" |
| `Cheddar.CheddarGetter.NoCustomersReply` | lib/cheddargetter.rb:31-40 | the error "Bad request: No customers found" makes `customers` answer `[]` |
| `Cheddar.CheddarGetter.CreateCustomerReply` | lib/cheddargetter.rb:66-69 | posting `{name: "justin"}` answers the customer the reply holds |
| `Cheddar.CheddarGetter.ItemQuantityDefaultsToOne` | lib/cheddargetter.rb:113-121 | without a quantity, both item operations post `{"quantity" => 1}` |
| `Cheddar.CheddarGetter.PlanUrl` | lib/cheddargetter.rb:134 | the plan request goes to `https://cheddargetter.com/xml/plans/get/productCode/{product}/code/{plan}` |
| `Cheddar.CheddarGetter.PlanPathsReadBack` | lib/cheddargetter.rb:19-27 | with slash-free identifiers, both plan paths read back into their exact segments |
| `Cheddar.CheddarGetter.CustomerPathsReadBack` | lib/cheddargetter.rb:32-43 | with slash-free identifiers, both customer lookup paths read back into their exact segments |
| `Cheddar.CheddarGetter.CustomerEditPathsReadBack` | lib/cheddargetter.rb:67-76 | with slash-free identifiers, the create and update paths read back into their exact segments |
| `Cheddar.CheddarGetter.SubscriptionPathsReadBack` | lib/cheddargetter.rb:84-101 | with slash-free identifiers, the cancel and edit-subscription paths read back into their exact segments |
| `Cheddar.CheddarGetter.DeletePathsReadBack` | lib/cheddargetter.rb:106-110 | with slash-free identifiers, both deletion paths read back into their exact segments |
| `Cheddar.CheddarGetter.AddItemPathReadsBack` | lib/cheddargetter.rb:114 | with slash-free identifiers, the add-item path reads back into its exact segments |
| `Cheddar.CheddarGetter.RemoveItemPathReadsBack` | lib/cheddargetter.rb:119 | with slash-free identifiers, the remove-item path reads back into its exact segments |
| `Cheddar.CheddarGetter.SlashInPlanCodeSplits` | lib/cheddargetter.rb:27 | identifiers are not escaped: the plan code "a/b" turns into two path segments |

## Left out

- The HTTP transport (`self.class.send`, line 135) and its XML-to-hash parsing belong to the HTTParty library, which is not part of this model. The `transport` parameter stands for both.
- Transport failures (connection errors, timeouts, unparseable bodies) are raised by HTTParty and pass through every operation unchanged. The model's `transport` always answers a value, so they do not occur.
- The class-level `basic_auth` call (line 11) configures global HTTP library state that only shows on the wire. The constructor takes the credentials and does not keep them.
- The XML parser's type casting of typed elements (integers, booleans, dates) is not modelled. Parsed values are text, hashes, arrays and nil, so Ruby's other falsy value, `false`, never appears.
- Cheddar.CheddarGetter.Customers: when the error entry is a hash or an array, `Exception#message` is the entry's `to_s`, whose output format is Ruby's. The model takes that rendering as the parameter `render`.
- Cheddar.NoCustomersFound folds ASCII letters only. Ruby's regexp engine also applies Unicode case folding, under which for example U+017F (long s) matches `s`.
- Ruby hashes keep insertion order and Dafny maps do not. No operation here depends on key order; array order is kept.
- Ruby string interpolation calls `to_s` on any identifier. The model takes identifiers as strings and the quantity as an integer.
- POST attributes are a Ruby hash with any keys (the documented ones are symbols such as `:code`) and any values. The model's `Form` has string keys and text, integer or nested-hash values. Every operation passes the body on unchanged, so no contract depends on this.
