/**
 * Client scenarios: sequences of handler calls and what a caller can conclude
 * from the handlers' contracts alone.
 */
module Scenarios {
  import opened Wrappers
  import opened Json
  import opened Gateway
  import opened Portal
  import opened InvoiceNumbers

  /** A linked token is what the next fetch of the customer shows. */
  method LinkThenFetch(s: Store, id: string, token: Value) returns (fetched: Reply)
    requires s.Valid() && id in s.customers && Truthy(token)
    modifies s
    ensures fetched.Body? && fetched.body.Obj? && Get(fetched.body.fields, "tokenId") == token
  {
    var linked := s.SaveCustomerToken(id, map["tokenId" := token]);
    fetched := s.GetCustomer(id);
  }

  /** A new customer starts without a token and is found under its generated id. */
  method CreateThenFetch(s: Store, name: string, email: string, uid: string) returns (fetched: Reply)
    requires s.Valid() && IsUuidPrefix(uid) && CustomerKey(uid) !in s.customers
    modifies s
    ensures fetched.Body? && fetched.body.Obj?
    ensures Get(fetched.body.fields, "tokenId") == Null && Get(fetched.body.fields, "id") == Str(CustomerKey(uid))
  {
    var created := s.AddCustomer(map["name" := Str(name), "email" := Str(email)], uid);
    fetched := s.GetCustomer(CustomerKey(uid));
  }

  /** After one successful lookup, the next one is served from the cache, whatever upstream would say. */
  method LookupTwice(s: Store, id: string, first: Upstream, second: Upstream) returns (again: Reply, called: bool)
    requires s.Valid() && Str(id) !in s.transactions && first.Ok?
    modifies s
    ensures !called && again == Body(200, first.body)
  {
    var reply, _ := s.GetTransaction(id, first);
    again, called := s.GetTransaction(id, second);
  }

  /** An invoice marked paid stays Paid when another invoice is created. */
  method PaidStaysPaid(s: Store, invoiceId: string, data: Record, uid: string, number: nat)
    returns (status: Value)
    requires s.Valid() && invoiceId in s.invoices
    requires IsUuidPrefix(uid) && InvoiceKey(uid) !in s.invoices
    requires MIN_NUMBER <= number <= MAX_NUMBER
    modifies s
    ensures status == PAID
  {
    var paid := s.MarkInvoicePaid(invoiceId, data);
    ghost var afterPaid := s.invoices;
    var added := s.AddInvoice(data, uid, number);
    StatusNeverReverts(afterPaid, s.invoices, invoiceId);
    status := Status(s.invoices[invoiceId]);
  }
}
