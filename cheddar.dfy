/** The CheddarGetter client: the request it sends for each operation, the
    error check on the parsed reply, and how each reply is normalized into a
    single record or a list of records. The HTTP library that sends a request
    and parses the XML reply is the `transport` parameter. */
module Cheddar {
  import opened Text
  import opened Parsed

  const BaseUrl: string := "https://cheddargetter.com/xml"

  datatype Option<T> = None | Some(value: T)

  datatype Verb = Get | Post

  /** A POST body as the caller passes it: a hash of text, integers and nested
      hashes, with string keys. */
  datatype Param = Scalar(text: string) | Integer(n: int) | Nested(fields: map<string, Param>)

  type Form = map<string, Param>

  /** What is handed to the HTTP library: the verb, the full URL, and the
      `:body` option when the operation has one. */
  datatype HttpRequest = HttpRequest(verb: Verb, url: string, body: Option<Form>)

  /** `CheddarGetter::Error` carries the reply's error entry; the others are the
      exceptions Ruby raises on its own while the reply is taken apart. */
  datatype Error = RemoteError(entry: Value) | RubyError(raised: Raised)

  datatype Result<T> = Ok(value: T) | Err(error: Error) {
    predicate IsFailure() {
      Err?
    }

    function PropagateFailure<U>(): Result<U>
      requires Err?
    {
      Err(error)
    }

    function Extract(): T
      requires Ok?
    {
      value
    }
  }

  /** The request for `path`: the path is appended to the fixed service URL. */
  function Outgoing(verb: Verb, path: string, body: Option<Form>): (q: HttpRequest)
    ensures q.verb == verb && q.body == body
    ensures |q.url| == |BaseUrl| + |path|
    ensures q.url[..|BaseUrl|] == BaseUrl && q.url[|BaseUrl|..] == path
  {
    HttpRequest(verb, BaseUrl + path, body)
  }

  /** The private `request`: send, then raise the reply's error entry when it
      has a truthy one, else hand the reply back untouched. */
  function Request(verb: Verb, path: string, body: Option<Form>, transport: HttpRequest -> Value): (r: Result<Value>)
    ensures var reply := transport(Outgoing(verb, path, body));
      && (r.Ok? ==> r.value == reply)
      && (reply.Hash? ==> (r.Err? <==> Truthy(Fetch(reply.fields, "error"))))
      && (reply.Hash? && r.Err? ==> r.error == RemoteError(Fetch(reply.fields, "error")))
      && (reply.Str? ==> (r.Err? <==> exists i: nat :: OccursAt(reply.text, "error", i)))
      && (reply.Str? && r.Err? ==> r.error == RemoteError(Str("error")))
      && (reply.Nil? ==> r == Err(RubyError(NoMethodError)))
      && (reply.Array? ==> r == Err(RubyError(TypeError)))
  {
    var reply := transport(Outgoing(verb, path, body));
    match At(reply, "error")
    case Raises(x) => Err(RubyError(x))
    case Found(entry) => if Truthy(entry) then Err(RemoteError(entry)) else Ok(reply)
  }

  /** `normalize`: the empty list when the parent node is missing, else the
      parent's child entry as it is. */
  function Normalize(response: Value, parent: string, child: string): (r: Result<Value>)
    ensures r.Err? ==> r.error.RubyError?
    ensures response.Hash? && !Truthy(Fetch(response.fields, parent)) ==> r == Ok(Array([]))
    ensures response.Hash? && Fetch(response.fields, parent).Hash? ==>
      r == Ok(Fetch(Fetch(response.fields, parent).fields, child))
    ensures response.Hash? && Fetch(response.fields, parent).Array? ==> r == Err(RubyError(TypeError))
    ensures response.Hash? && Fetch(response.fields, parent).Str? ==>
      && r.Ok?
      && (Truthy(r.value) <==> exists i: nat :: OccursAt(Fetch(response.fields, parent).text, child, i))
      && (Truthy(r.value) ==> r.value == Str(child))
    ensures response.Str? ==>
      && r.Ok?
      && (!(exists i: nat :: OccursAt(response.text, parent, i)) ==> r == Ok(Array([])))
      && ((exists i: nat :: OccursAt(response.text, parent, i)) ==>
            r == Ok(if exists j: nat :: OccursAt(parent, child, j) then Str(child) else Nil))
    ensures response.Nil? ==> r == Err(RubyError(NoMethodError))
    ensures response.Array? ==> r == Err(RubyError(TypeError))
  {
    match At(response, parent)
    case Raises(x) => Err(RubyError(x))
    case Found(node) =>
      if !Truthy(node) then Ok(Array([]))
      else match At(node, child)
        case Raises(x) => Err(RubyError(x))
        case Found(v) => Ok(v)
  }

  /** The `unless children.is_a?(Array)` step: anything that is not an array,
      nil included, becomes a one-element array. */
  function Wrap(v: Value): (r: Value)
    ensures r.Array?
  {
    if v.Array? then v else Array([v])
  }

  /** `normalize_collection`: always a list of the parent's children. */
  function NormalizeCollection(response: Value, parent: string, child: string): (r: Result<Value>)
    ensures r.Ok? ==> r.value.Array?
    ensures r.Err? <==> Normalize(response, parent, child).Err?
    ensures r.Err? ==> r.error == Normalize(response, parent, child).error
    ensures Normalize(response, parent, child).Ok? && Normalize(response, parent, child).value.Array? ==>
      r == Normalize(response, parent, child)
    ensures Normalize(response, parent, child).Ok? && !Normalize(response, parent, child).value.Array? ==>
      r == Ok(Array([Normalize(response, parent, child).value]))
  {
    var children :- Normalize(response, parent, child);
    Ok(Wrap(children))
  }

  /** The message of a raised `CheddarGetter::Error`: the entry's text, or
      Ruby's rendering of it when the entry is a hash or an array. */
  function Message(entry: Value, render: Value -> string): (m: string)
    ensures entry.Str? ==> m == entry.text
    ensures !entry.Str? ==> m == render(entry)
  {
    if entry.Str? then entry.text else render(entry)
  }

  /** The one error message that `customers` treats as an empty result:
      it contains "no customers found" in any letter case. */
  predicate NoCustomersFound(message: string): (b: bool)
    ensures b <==> exists i: nat :: OccursAt(Lower(message), "no customers found", i)
  {
    ContainsIffOccurs(Lower(message), "no customers found");
    Contains(Lower(message), "no customers found")
  }

  /** What a single-record operation answers to its reply. Nil and array
      replies raise Ruby errors. For a hash or text reply: the error
      entry raised when it is truthy; otherwise `[]` when the parent node is
      missing, the parent's child entry when the parent is a hash, and Ruby's
      indexing of an array or text parent. A text reply is indexed by
      `String#[]`: "error" in it raises, and the parent and child keys are
      looked for in turn. */
  ghost predicate RecordReply(reply: Value, parent: string, child: string, r: Result<Value>) {
    && (reply.Nil? ==> r == Err(RubyError(NoMethodError)))
    && (reply.Array? ==> r == Err(RubyError(TypeError)))
    && (reply.Str? ==>
      var raised, found := (exists i: nat :: OccursAt(reply.text, "error", i)), (exists i: nat :: OccursAt(reply.text, parent, i));
      && (raised ==> r == Err(RemoteError(Str("error"))))
      && (!raised && !found ==> r == Ok(Array([])))
      && (!raised && found ==> r == Ok(if exists j: nat :: OccursAt(parent, child, j) then Str(child) else Nil)))
    && (reply.Hash? ==>
      var failure, node := Fetch(reply.fields, "error"), Fetch(reply.fields, parent);
      && (Truthy(failure) ==> r == Err(RemoteError(failure)))
      && (!Truthy(failure) && !Truthy(node) ==> r == Ok(Array([])))
      && (!Truthy(failure) && node.Hash? ==> r == Ok(Fetch(node.fields, child)))
      && (!Truthy(failure) && node.Array? ==> r == Err(RubyError(TypeError)))
      && (!Truthy(failure) && node.Str? ==>
            r == Ok(if exists i: nat :: OccursAt(node.text, child, i) then Str(child) else Nil)))
  }

  /** What a list operation answers to its reply: as RecordReply, but
      a child entry that is not already an array comes back as a one-element one. */
  ghost predicate ListReply(reply: Value, parent: string, child: string, r: Result<Value>) {
    && (reply.Nil? ==> r == Err(RubyError(NoMethodError)))
    && (reply.Array? ==> r == Err(RubyError(TypeError)))
    && (reply.Str? ==>
      var raised, found := (exists i: nat :: OccursAt(reply.text, "error", i)), (exists i: nat :: OccursAt(reply.text, parent, i));
      && (raised ==> r == Err(RemoteError(Str("error"))))
      && (!raised && !found ==> r == Ok(Array([])))
      && (!raised && found ==> r == Ok(Array([if exists j: nat :: OccursAt(parent, child, j) then Str(child) else Nil]))))
    && (reply.Hash? ==>
      var failure, node := Fetch(reply.fields, "error"), Fetch(reply.fields, parent);
      && (Truthy(failure) ==> r == Err(RemoteError(failure)))
      && (!Truthy(failure) && !Truthy(node) ==> r == Ok(Array([])))
      && (!Truthy(failure) && node.Hash? && Fetch(node.fields, child).Array? ==> r == Ok(Fetch(node.fields, child)))
      && (!Truthy(failure) && node.Hash? && !Fetch(node.fields, child).Array? ==> r == Ok(Array([Fetch(node.fields, child)])))
      && (!Truthy(failure) && node.Array? ==> r == Err(RubyError(TypeError)))
      && (!Truthy(failure) && node.Str? ==>
            r == Ok(Array([if exists i: nat :: OccursAt(node.text, child, i) then Str(child) else Nil]))))
  }

  /** A hash reply whose `error` entry and `parent` node are both absent or nil. */
  predicate BareReply(reply: Value, parent: string) {
    reply.Hash? && !Truthy(Fetch(reply.fields, "error")) && !Truthy(Fetch(reply.fields, parent))
  }

  /** The body `add_item` and `remove_item` post. */
  function QuantityBody(quantity: int): (f: Form)
    ensures f.Keys == {"quantity"} && f["quantity"] == Integer(quantity)
  {
    map["quantity" := Integer(quantity)]
  }

  /** Wrapping what is already wrapped changes nothing. */
  lemma WrapIdempotent(v: Value)
    ensures Wrap(Wrap(v)) == Wrap(v)
    ensures v.Array? ==> Wrap(v) == v
    ensures !v.Array? ==> Wrap(v).items == [v]
  {
  }

  /** The service's wording is recognised inside a longer message. */
  lemma ServiceWordingMatches()
    ensures NoCustomersFound("Bad request: No customers found")
  {
    var a := "Bad request: No customers found";
    assert Lower(a)[13..31] == "no customers found";
    assert OccursAt(Lower(a), "no customers found", 13);
  }

  /** The all-capitals wording is recognised. */
  lemma UpperCaseWordingMatches()
    ensures NoCustomersFound("NO CUSTOMERS FOUND")
  {
    var b := "NO CUSTOMERS FOUND";
    assert Lower(b)[0..18] == "no customers found";
    assert OccursAt(Lower(b), "no customers found", 0);
  }

  /** Letter case does not matter: a message and its lower-cased form are
      recognised alike. */
  lemma CaseInsensitive(message: string)
    ensures NoCustomersFound(Lower(message)) <==> NoCustomersFound(message)
  {
    assert Lower(Lower(message)) == Lower(message);
  }

  /** Other messages, even close ones, are not recognised. */
  lemma OtherWordingDoesNotMatch()
    ensures !NoCustomersFound("bad code")
    ensures !NoCustomersFound("No customer found")
  {
    ContainsIffOccurs(Lower("bad code"), "no customers found");
    ContainsIffOccurs(Lower("No customer found"), "no customers found");
  }

  // The literal leads of the request paths, spelled out segment by segment.

  lemma PlansLead()
    ensures "/" + "plans" + "/" + "get" + "/" + "productCode" + "/" == "/plans/get/productCode/"
  {
    assert "/" + "plans" + "/" == "/plans/";
    assert "/plans/" + "get" + "/" == "/plans/get/";
    assert "/plans/get/" + "productCode" + "/" == "/plans/get/productCode/";
  }

  lemma CustomersLead()
    ensures "/" + "customers" + "/" + "get" + "/" + "productCode" + "/" == "/customers/get/productCode/"
  {
    assert "/" + "customers" + "/" == "/customers/";
    assert "/customers/" + "get" + "/" == "/customers/get/";
    assert "/customers/get/" + "productCode" + "/" == "/customers/get/productCode/";
  }

  lemma NewCustomerLead()
    ensures "/" + "customers" + "/" + "new" + "/" + "productCode" + "/" == "/customers/new/productCode/"
  {
    assert "/" + "customers" + "/" == "/customers/";
    assert "/customers/" + "new" + "/" == "/customers/new/";
    assert "/customers/new/" + "productCode" + "/" == "/customers/new/productCode/";
  }

  lemma EditCustomerLead()
    ensures "/" + "customers" + "/" + "edit" + "/" + "productCode" + "/" == "/customers/edit/productCode/"
  {
    assert "/" + "customers" + "/" == "/customers/";
    assert "/customers/" + "edit" + "/" == "/customers/edit/";
    assert "/customers/edit/" + "productCode" + "/" == "/customers/edit/productCode/";
  }

  lemma CancelLead()
    ensures "/" + "customers" + "/" + "cancel" + "/" + "productCode" + "/" == "/customers/cancel/productCode/"
  {
    assert "/" + "customers" + "/" == "/customers/";
    assert "/customers/" + "cancel" + "/" == "/customers/cancel/";
    assert "/customers/cancel/" + "productCode" + "/" == "/customers/cancel/productCode/";
  }

  lemma EditSubscriptionLead()
    ensures "/" + "customers" + "/" + "edit-subscription" + "/" + "productCode" + "/" == "/customers/edit-subscription/productCode/"
  {
    assert "/" + "customers" + "/" == "/customers/";
    assert "/customers/" + "edit-subscription" + "/" == "/customers/edit-subscription/";
    assert "/customers/edit-subscription/" + "productCode" + "/" == "/customers/edit-subscription/productCode/";
  }

  lemma DeleteAllLead()
    ensures "/" + "customers" + "/" + "delete-all" + "/" + "confirm" + "/" + "1" + "/" + "productCode" + "/" == "/customers/delete-all/confirm/1/productCode/"
  {
    assert "/" + "customers" + "/" == "/customers/";
    assert "/customers/" + "delete-all" + "/" == "/customers/delete-all/";
    assert "/customers/delete-all/" + "confirm" + "/" == "/customers/delete-all/confirm/";
    assert "/customers/delete-all/confirm/" + "1" + "/" == "/customers/delete-all/confirm/1/";
    assert "/customers/delete-all/confirm/1/" + "productCode" + "/" == "/customers/delete-all/confirm/1/productCode/";
  }

  lemma DeleteLead()
    ensures "/" + "customers" + "/" + "delete" + "/" + "productCode" + "/" == "/customers/delete/productCode/"
  {
    assert "/" + "customers" + "/" == "/customers/";
    assert "/customers/" + "delete" + "/" == "/customers/delete/";
    assert "/customers/delete/" + "productCode" + "/" == "/customers/delete/productCode/";
  }

  lemma AddItemLead()
    ensures "/" + "customers" + "/" + "add-item-quantity" + "/" + "productCode" + "/" == "/customers/add-item-quantity/productCode/"
  {
    assert "/" + "customers" + "/" == "/customers/";
    assert "/customers/" + "add-item-quantity" + "/" == "/customers/add-item-quantity/";
    assert "/customers/add-item-quantity/" + "productCode" + "/" == "/customers/add-item-quantity/productCode/";
  }

  lemma RemoveItemLead()
    ensures "/" + "customers" + "/" + "remove-item-quantity" + "/" + "productCode" + "/" == "/customers/remove-item-quantity/productCode/"
  {
    assert "/" + "customers" + "/" == "/customers/";
    assert "/customers/" + "remove-item-quantity" + "/" == "/customers/remove-item-quantity/";
    assert "/customers/remove-item-quantity/" + "productCode" + "/" == "/customers/remove-item-quantity/productCode/";
  }

  lemma KeyPieces()
    ensures "/" + "code" + "/" == "/code/"
    ensures "/" + "itemCode" + "/" == "/itemCode/"
  {
  }

  class CheddarGetter {
    const productCode: string

    /** The credentials go to the HTTP library's class-level basic auth, which
        this model leaves out; the instance keeps only the product code. */
    constructor (username: string, password: string, productCode: string)
      ensures this.productCode == productCode
    {
      this.productCode := productCode;
    }

    // The path of every operation, written as the source writes it, with the
    // segment structure it has as its contract.

    function PlansPath(): (p: string)
      ensures p == Path(["plans", "get", "productCode", productCode])
    {
      PlansLead();
      Interpolated1("plans", "get", "productCode", "/plans/get/productCode/", productCode);
      "/plans/get/productCode/" + productCode
    }

    function PlanPath(planCode: string): (p: string)
      ensures p == Path(["plans", "get", "productCode", productCode, "code", planCode])
    {
      PlansLead();
      KeyPieces();
      Interpolated2("plans", "get", "productCode", "/plans/get/productCode/", productCode, "code", planCode);
      "/plans/get/productCode/" + productCode + "/code/" + planCode
    }

    function CustomersPath(): (p: string)
      ensures p == Path(["customers", "get", "productCode", productCode])
    {
      CustomersLead();
      Interpolated1("customers", "get", "productCode", "/customers/get/productCode/", productCode);
      "/customers/get/productCode/" + productCode
    }

    function CustomerPath(customerCode: string): (p: string)
      ensures p == Path(["customers", "get", "productCode", productCode, "code", customerCode])
    {
      CustomersLead();
      KeyPieces();
      Interpolated2("customers", "get", "productCode", "/customers/get/productCode/", productCode, "code", customerCode);
      "/customers/get/productCode/" + productCode + "/code/" + customerCode
    }

    function CreateCustomerPath(): (p: string)
      ensures p == Path(["customers", "new", "productCode", productCode])
    {
      NewCustomerLead();
      Interpolated1("customers", "new", "productCode", "/customers/new/productCode/", productCode);
      "/customers/new/productCode/" + productCode
    }

    function UpdateCustomerPath(customerCode: string): (p: string)
      ensures p == Path(["customers", "edit", "productCode", productCode, "code", customerCode])
    {
      EditCustomerLead();
      KeyPieces();
      Interpolated2("customers", "edit", "productCode", "/customers/edit/productCode/", productCode, "code", customerCode);
      "/customers/edit/productCode/" + productCode + "/code/" + customerCode
    }

    function CancelSubscriptionPath(customerCode: string): (p: string)
      ensures p == Path(["customers", "cancel", "productCode", productCode, "code", customerCode])
    {
      CancelLead();
      KeyPieces();
      Interpolated2("customers", "cancel", "productCode", "/customers/cancel/productCode/", productCode, "code", customerCode);
      "/customers/cancel/productCode/" + productCode + "/code/" + customerCode
    }

    function UpdateSubscriptionPath(customerCode: string): (p: string)
      ensures p == Path(["customers", "edit-subscription", "productCode", productCode, "code", customerCode])
    {
      EditSubscriptionLead();
      KeyPieces();
      Interpolated2("customers", "edit-subscription", "productCode", "/customers/edit-subscription/productCode/", productCode, "code", customerCode);
      "/customers/edit-subscription/productCode/" + productCode + "/code/" + customerCode
    }

    function DeleteAllCustomersPath(): (p: string)
      ensures p == Path(["customers", "delete-all", "confirm", "1", "productCode", productCode])
    {
      DeleteAllLead();
      InterpolatedAfterFive("customers", "delete-all", "confirm", "1", "productCode", "/customers/delete-all/confirm/1/productCode/", productCode);
      "/customers/delete-all/confirm/1/productCode/" + productCode
    }

    function DeleteCustomerPath(customerCode: string): (p: string)
      ensures p == Path(["customers", "delete", "productCode", productCode, "code", customerCode])
    {
      DeleteLead();
      KeyPieces();
      Interpolated2("customers", "delete", "productCode", "/customers/delete/productCode/", productCode, "code", customerCode);
      "/customers/delete/productCode/" + productCode + "/code/" + customerCode
    }

    function AddItemPath(customerCode: string, itemCode: string): (p: string)
      ensures p == Path(["customers", "add-item-quantity", "productCode", productCode, "code", customerCode, "itemCode", itemCode])
    {
      AddItemLead();
      KeyPieces();
      Interpolated3("customers", "add-item-quantity", "productCode", "/customers/add-item-quantity/productCode/", productCode, "code", customerCode, "itemCode", itemCode);
      "/customers/add-item-quantity/productCode/" + productCode + "/code/" + customerCode + "/itemCode/" + itemCode
    }

    function RemoveItemPath(customerCode: string, itemCode: string): (p: string)
      ensures p == Path(["customers", "remove-item-quantity", "productCode", productCode, "code", customerCode, "itemCode", itemCode])
    {
      RemoveItemLead();
      KeyPieces();
      Interpolated3("customers", "remove-item-quantity", "productCode", "/customers/remove-item-quantity/productCode/", productCode, "code", customerCode, "itemCode", itemCode);
      "/customers/remove-item-quantity/productCode/" + productCode + "/code/" + customerCode + "/itemCode/" + itemCode
    }

    // The public operations. Each sends one request through `transport` and
    // shapes the reply.

    function Plans(transport: HttpRequest -> Value): (r: Result<Value>)
      ensures r.Ok? ==> r.value.Array?
      ensures ListReply(transport(Outgoing(Get, PlansPath(), None)), "plans", "plan", r)
    {
      var response :- Request(Get, PlansPath(), None, transport);
      NormalizeCollection(response, "plans", "plan")
    }

    function Plan(planCode: string, transport: HttpRequest -> Value): (r: Result<Value>)
      ensures RecordReply(transport(Outgoing(Get, PlanPath(planCode), None)), "plans", "plan", r)
    {
      var response :- Request(Get, PlanPath(planCode), None, transport);
      Normalize(response, "plans", "plan")
    }

    /** `customers`: a failure whose message says that no customers were found
        is the empty list; every other failure is raised again unchanged. */
    function Customers(transport: HttpRequest -> Value, render: Value -> string): (r: Result<Value>)
      ensures r.Ok? ==> r.value.Array?
      ensures var reply := transport(Outgoing(Get, CustomersPath(), None));
        var failure := if reply.Hash? then Fetch(reply.fields, "error") else Nil;
        && (reply.Hash? && !Truthy(failure) ==> ListReply(reply, "customers", "customer", r))
        && (reply.Str? ==> ListReply(reply, "customers", "customer", r))
        && (reply.Hash? && Truthy(failure) ==>
              (r == Ok(Array([])) <==> NoCustomersFound(Message(failure, render)))
              && (!NoCustomersFound(Message(failure, render)) ==> r == Err(RemoteError(failure))))
      ensures var sent := Request(Get, CustomersPath(), None, transport);
        && (sent.Ok? ==> r == NormalizeCollection(sent.value, "customers", "customer"))
        && (sent.Err? && sent.error.RubyError? ==> r == sent)
    {
      var listed := (var response :- Request(Get, CustomersPath(), None, transport);
                     NormalizeCollection(response, "customers", "customer"));
      if listed.Err? && listed.error.RemoteError? && NoCustomersFound(Message(listed.error.entry, render))
      then Ok(Array([]))
      else listed
    }

    function Customer(customerCode: string, transport: HttpRequest -> Value): (r: Result<Value>)
      ensures RecordReply(transport(Outgoing(Get, CustomerPath(customerCode), None)), "customers", "customer", r)
    {
      var response :- Request(Get, CustomerPath(customerCode), None, transport);
      Normalize(response, "customers", "customer")
    }

    function CreateCustomer(attributes: Form, transport: HttpRequest -> Value): (r: Result<Value>)
      ensures RecordReply(transport(Outgoing(Post, CreateCustomerPath(), Some(attributes))), "customers", "customer", r)
    {
      var response :- Request(Post, CreateCustomerPath(), Some(attributes), transport);
      Normalize(response, "customers", "customer")
    }

    function UpdateCustomer(customerCode: string, attributes: Form, transport: HttpRequest -> Value): (r: Result<Value>)
      ensures RecordReply(transport(Outgoing(Post, UpdateCustomerPath(customerCode), Some(attributes))), "customers", "customer", r)
    {
      var response :- Request(Post, UpdateCustomerPath(customerCode), Some(attributes), transport);
      Normalize(response, "customers", "customer")
    }

    function CancelSubscription(customerCode: string, transport: HttpRequest -> Value): (r: Result<Value>)
      ensures RecordReply(transport(Outgoing(Post, CancelSubscriptionPath(customerCode), None)), "customers", "customer", r)
    {
      var response :- Request(Post, CancelSubscriptionPath(customerCode), None, transport);
      Normalize(response, "customers", "customer")
    }

    function UpdateSubscription(customerCode: string, attributes: Form, transport: HttpRequest -> Value): (r: Result<Value>)
      ensures RecordReply(transport(Outgoing(Post, UpdateSubscriptionPath(customerCode), Some(attributes))), "customers", "customer", r)
    {
      var response :- Request(Post, UpdateSubscriptionPath(customerCode), Some(attributes), transport);
      Normalize(response, "customers", "customer")
    }

    /** Answers the reply itself, unless it carries an error entry. */
    function DeleteAllCustomers(transport: HttpRequest -> Value): (r: Result<Value>)
      ensures var reply := transport(Outgoing(Post, DeleteAllCustomersPath(), None));
        reply.Hash? ==> r == if Truthy(Fetch(reply.fields, "error")) then Err(RemoteError(Fetch(reply.fields, "error"))) else Ok(reply)
    {
      Request(Post, DeleteAllCustomersPath(), None, transport)
    }

    /** Answers the reply itself, unless it carries an error entry. */
    function DeleteCustomer(customerCode: string, transport: HttpRequest -> Value): (r: Result<Value>)
      ensures var reply := transport(Outgoing(Post, DeleteCustomerPath(customerCode), None));
        reply.Hash? ==> r == if Truthy(Fetch(reply.fields, "error")) then Err(RemoteError(Fetch(reply.fields, "error"))) else Ok(reply)
    {
      Request(Post, DeleteCustomerPath(customerCode), None, transport)
    }

    /** The quantity defaults to 1, as in the source's signature. */
    function AddItem(customerCode: string, itemCode: string, transport: HttpRequest -> Value, quantity: int := 1): (r: Result<Value>)
      ensures RecordReply(transport(Outgoing(Post, AddItemPath(customerCode, itemCode), Some(QuantityBody(quantity)))), "customers", "customer", r)
    {
      var response :- Request(Post, AddItemPath(customerCode, itemCode), Some(QuantityBody(quantity)), transport);
      Normalize(response, "customers", "customer")
    }

    /** The quantity defaults to 1, as in the source's signature. */
    function RemoveItem(customerCode: string, itemCode: string, transport: HttpRequest -> Value, quantity: int := 1): (r: Result<Value>)
      ensures RecordReply(transport(Outgoing(Post, RemoveItemPath(customerCode, itemCode), Some(QuantityBody(quantity)))), "customers", "customer", r)
    {
      var response :- Request(Post, RemoveItemPath(customerCode, itemCode), Some(QuantityBody(quantity)), transport);
      Normalize(response, "customers", "customer")
    }

    // Properties that relate several operations or describe whole replies.

    /** One plan in the reply: the single accessor answers it and the list
        operation answers it as a one-element list; several plans come back
        as they are, in order. */
    lemma ListAndRecordAgree(planCode: string, x: Value, transport: HttpRequest -> Value)
      requires transport(Outgoing(Get, PlansPath(), None)) == Hash(map["plans" := Hash(map["plan" := x])])
      requires transport(Outgoing(Get, PlanPath(planCode), None)) == Hash(map["plans" := Hash(map["plan" := x])])
      ensures Plan(planCode, transport) == Ok(x)
      ensures !x.Array? ==> Plans(transport) == Ok(Array([x]))
      ensures x.Array? ==> Plans(transport) == Ok(x)
    {
    }

    /** A reply without the collection node and without an error is the empty
        list, for the list operations and the single accessors alike. */
    lemma MissingCollectionIsEmpty(planCode: string, customerCode: string, transport: HttpRequest -> Value, render: Value -> string)
      requires BareReply(transport(Outgoing(Get, PlansPath(), None)), "plans")
      requires BareReply(transport(Outgoing(Get, PlanPath(planCode), None)), "plans")
      requires BareReply(transport(Outgoing(Get, CustomersPath(), None)), "customers")
      requires BareReply(transport(Outgoing(Get, CustomerPath(customerCode), None)), "customers")
      ensures Plans(transport) == Ok(Array([]))
      ensures Plan(planCode, transport) == Ok(Array([]))
      ensures Customers(transport, render) == Ok(Array([]))
      ensures Customer(customerCode, transport) == Ok(Array([]))
    {
    }

    /** A child entry that is missing under a present parent is nil, and the
        list operation wraps it: it answers [nil], not []. */
    lemma MissingChildIsWrappedNil(transport: HttpRequest -> Value)
      requires transport(Outgoing(Get, PlansPath(), None)) == Hash(map["plans" := Hash(map[])])
      ensures Plans(transport) == Ok(Array([Nil]))
    {
    }

    /** An error reply with text `m` fails every query with exactly `m`,
        except that `customers` answers [] when `m` reports no customers. */
    lemma RemoteErrorFailsQueries(
      m: string, planCode: string, customerCode: string, transport: HttpRequest -> Value, render: Value -> string)
      requires forall q :: transport(q) == Hash(map["error" := Str(m)])
      ensures Plans(transport) == Err(RemoteError(Str(m)))
      ensures Plan(planCode, transport) == Err(RemoteError(Str(m)))
      ensures NoCustomersFound(m) ==> Customers(transport, render) == Ok(Array([]))
      ensures !NoCustomersFound(m) ==> Customers(transport, render) == Err(RemoteError(Str(m)))
      ensures Customer(customerCode, transport) == Err(RemoteError(Str(m)))
    {
    }

    /** An error reply with text `m` fails every customer update with exactly `m`. */
    lemma RemoteErrorFailsUpdates(
      m: string, customerCode: string, attributes: Form, transport: HttpRequest -> Value)
      requires forall q :: transport(q) == Hash(map["error" := Str(m)])
      ensures CreateCustomer(attributes, transport) == Err(RemoteError(Str(m)))
      ensures UpdateCustomer(customerCode, attributes, transport) == Err(RemoteError(Str(m)))
      ensures CancelSubscription(customerCode, transport) == Err(RemoteError(Str(m)))
      ensures UpdateSubscription(customerCode, attributes, transport) == Err(RemoteError(Str(m)))
    {
    }

    /** An error reply with text `m` fails every deletion and item change with exactly `m`. */
    lemma RemoteErrorFailsDeletesAndItems(
      m: string, customerCode: string, itemCode: string, transport: HttpRequest -> Value)
      requires forall q :: transport(q) == Hash(map["error" := Str(m)])
      ensures DeleteAllCustomers(transport) == Err(RemoteError(Str(m)))
      ensures DeleteCustomer(customerCode, transport) == Err(RemoteError(Str(m)))
      ensures AddItem(customerCode, itemCode, transport) == Err(RemoteError(Str(m)))
      ensures RemoveItem(customerCode, itemCode, transport) == Err(RemoteError(Str(m)))
    {
    }

    /** `<plans><plan>plan1</plan><plan>plan2</plan></plans>` lists both plans in order. */
    lemma TwoPlansReply(transport: HttpRequest -> Value)
      requires transport(Outgoing(Get, PlansPath(), None))
        == Hash(map["plans" := Hash(map["plan" := Array([Str("plan1"), Str("plan2")])])])
      ensures Plans(transport) == Ok(Array([Str("plan1"), Str("plan2")]))
    {
    }

    /** A text reply, such as an error page, that mentions neither "error" nor
        "plans" passes the error check and lists no plans. */
    lemma TextReplyListsNoPlans(transport: HttpRequest -> Value)
      requires transport(Outgoing(Get, PlansPath(), None)) == Str("Error")
      ensures Plans(transport) == Ok(Array([]))
    {
      AbsentWhenFirstDiffers("Error", "error");
      AbsentWhenFirstDiffers("Error", "plans");
    }

    /** A text reply that mentions "error" fails `customers` with the text
        "error", which does not report missing customers, so it is raised. */
    lemma TextErrorPageFailsCustomers(transport: HttpRequest -> Value, render: Value -> string)
      requires transport(Outgoing(Get, CustomersPath(), None)) == Str("an error page")
      ensures Customers(transport, render) == Err(RemoteError(Str("error")))
    {
      assert "an error page"[3..8] == "error";
      assert OccursAt("an error page", "error", 3);
    }

    /** `<error>bad code</error>` for a plan code fails with "bad code". */
    lemma BadPlanCodeReply(transport: HttpRequest -> Value)
      requires transport(Outgoing(Get, PlanPath("BAD_CODE"), None)) == Hash(map["error" := Str("bad code")])
      ensures Plan("BAD_CODE", transport) == Err(RemoteError(Str("bad code")))
    {
    }

    /** The "no customers found" error of the service is the empty customer list. */
    lemma NoCustomersReply(transport: HttpRequest -> Value, render: Value -> string)
      requires transport(Outgoing(Get, CustomersPath(), None)) == Hash(map["error" := Str("Bad request: No customers found")])
      ensures Customers(transport, render) == Ok(Array([]))
    {
      ServiceWordingMatches();
    }

    /** Creating a customer posts the caller's attributes as the body and answers
        the customer the reply holds. */
    lemma CreateCustomerReply(transport: HttpRequest -> Value)
      requires transport(Outgoing(Post, CreateCustomerPath(), Some(map["name" := Scalar("justin")])))
        == Hash(map["customers" := Hash(map["customer" := Str("new customer")])])
      ensures CreateCustomer(map["name" := Scalar("justin")], transport) == Ok(Str("new customer"))
    {
    }

    /** Without a quantity, `add_item` and `remove_item` post `{"quantity" => 1}`. */
    lemma ItemQuantityDefaultsToOne(customerCode: string, itemCode: string, x: Value, transport: HttpRequest -> Value)
      requires transport(Outgoing(Post, AddItemPath(customerCode, itemCode), Some(map["quantity" := Integer(1)])))
        == Hash(map["customers" := Hash(map["customer" := x])])
      requires transport(Outgoing(Post, RemoveItemPath(customerCode, itemCode), Some(map["quantity" := Integer(1)])))
        == Hash(map["customers" := Hash(map["customer" := x])])
      ensures AddItem(customerCode, itemCode, transport) == Ok(x)
      ensures RemoveItem(customerCode, itemCode, transport) == Ok(x)
    {
      assert QuantityBody(1) == map["quantity" := Integer(1)];
    }

    /** Every request goes to the service URL followed by the operation's path. */
    lemma PlanUrl(planCode: string)
      ensures Outgoing(Get, PlanPath(planCode), None).url
        == "https://cheddargetter.com/xml" + "/plans/get/productCode/" + productCode + "/code/" + planCode
    {
    }

    // When no identifier contains '/', reading a path back yields exactly the
    // fixed segments with the identifiers in their places.

    lemma PlanPathsReadBack(planCode: string)
      requires '/' !in productCode && '/' !in planCode
      ensures Segments(PlansPath()) == ["plans", "get", "productCode", productCode]
      ensures Segments(PlanPath(planCode)) == ["plans", "get", "productCode", productCode, "code", planCode]
    {
      SegmentsOfFour("plans", "get", "productCode", productCode);
      SegmentsOfSix("plans", "get", "productCode", productCode, "code", planCode);
    }

    lemma CustomerPathsReadBack(customerCode: string)
      requires '/' !in productCode && '/' !in customerCode
      ensures Segments(CustomersPath()) == ["customers", "get", "productCode", productCode]
      ensures Segments(CustomerPath(customerCode)) == ["customers", "get", "productCode", productCode, "code", customerCode]
    {
      SegmentsOfFour("customers", "get", "productCode", productCode);
      SegmentsOfSix("customers", "get", "productCode", productCode, "code", customerCode);
    }

    lemma CustomerEditPathsReadBack(customerCode: string)
      requires '/' !in productCode && '/' !in customerCode
      ensures Segments(CreateCustomerPath()) == ["customers", "new", "productCode", productCode]
      ensures Segments(UpdateCustomerPath(customerCode)) == ["customers", "edit", "productCode", productCode, "code", customerCode]
    {
      SegmentsOfFour("customers", "new", "productCode", productCode);
      SegmentsOfSix("customers", "edit", "productCode", productCode, "code", customerCode);
    }

    lemma SubscriptionPathsReadBack(customerCode: string)
      requires '/' !in productCode && '/' !in customerCode
      ensures Segments(CancelSubscriptionPath(customerCode)) == ["customers", "cancel", "productCode", productCode, "code", customerCode]
      ensures Segments(UpdateSubscriptionPath(customerCode)) == ["customers", "edit-subscription", "productCode", productCode, "code", customerCode]
    {
      SegmentsOfSix("customers", "cancel", "productCode", productCode, "code", customerCode);
      SegmentsOfSix("customers", "edit-subscription", "productCode", productCode, "code", customerCode);
    }

    lemma DeletePathsReadBack(customerCode: string)
      requires '/' !in productCode && '/' !in customerCode
      ensures Segments(DeleteAllCustomersPath()) == ["customers", "delete-all", "confirm", "1", "productCode", productCode]
      ensures Segments(DeleteCustomerPath(customerCode)) == ["customers", "delete", "productCode", productCode, "code", customerCode]
    {
      SegmentsOfSix("customers", "delete-all", "confirm", "1", "productCode", productCode);
      SegmentsOfSix("customers", "delete", "productCode", productCode, "code", customerCode);
    }

    lemma AddItemPathReadsBack(customerCode: string, itemCode: string)
      requires '/' !in productCode && '/' !in customerCode && '/' !in itemCode
      ensures Segments(AddItemPath(customerCode, itemCode)) == ["customers", "add-item-quantity", "productCode", productCode, "code", customerCode, "itemCode", itemCode]
    {
      SegmentsOfEight("customers", "add-item-quantity", "productCode", productCode, "code", customerCode, "itemCode", itemCode);
    }

    lemma RemoveItemPathReadsBack(customerCode: string, itemCode: string)
      requires '/' !in productCode && '/' !in customerCode && '/' !in itemCode
      ensures Segments(RemoveItemPath(customerCode, itemCode)) == ["customers", "remove-item-quantity", "productCode", productCode, "code", customerCode, "itemCode", itemCode]
    {
      SegmentsOfEight("customers", "remove-item-quantity", "productCode", productCode, "code", customerCode, "itemCode", itemCode);
    }

    /** Identifiers are not escaped: a plan code with a '/' in it adds a segment. */
    lemma SlashInPlanCodeSplits()
      requires '/' !in productCode
      ensures Segments(PlanPath("a/b")) == ["plans", "get", "productCode", productCode, "code", "a", "b"]
    {
      var prefix := ["plans", "get", "productCode", productCode, "code"];
      PathAppend(prefix, ["a/b"]);
      PathAppend(prefix, ["a", "b"]);
      assert Path(["a/b"]) == "/a/b";
      assert Path(["a", "b"]) == "/a/b" by {
        PathCons("a", ["b"]);
      }
      assert prefix + ["a/b"] == ["plans", "get", "productCode", productCode, "code", "a/b"];
      SegmentsOfPath(prefix + ["a", "b"]);
    }
  }
}
