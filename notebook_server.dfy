/**
 * The wallet-to-notebook binding server (backend/server.js).
 *
 * The server keeps a process-wide map from a wallet address to the id of the
 * document-platform page created for it, and offers two handlers:
 * create-notion-page (bind a wallet to a new page, or return the existing
 * binding) and append-note (append one paragraph to the bound page).
 *
 * The document platform is an oracle: each handler receives the reply the
 * platform would give if it is called. The model records every request sent
 * to the platform, and the paragraphs each page has received, so that "no
 * platform call" and "exactly one paragraph appended" can be stated.
 *
 * Each handler is a method of class NotebookServer, proved to coincide with
 * a pure step function (CreateStep, AppendStep) on a State value; the
 * properties of the handlers are the contracts of those functions and the
 * lemmas about them.
 */
module NotebookServer {
  import opened Common

  const TitlePrefix := "Physics Notes - "
  const MissingWalletError := "Missing walletAddress"
  const NoPageError := "No Notion page for this wallet"
  const CreateFailedError := "Failed to create Notion page"
  const AppendFailedError := "Failed to append note"

  /** A block of page content; the server only ever sends paragraphs. */
  datatype Block = Paragraph(content: string)

  /** A request sent to the document platform. */
  datatype PlatformRequest =
    | CreatePage(title: string, walletProperty: string)
    | AppendChildren(blockId: string, children: seq<Block>)

  /** What the platform answers to a page-creation request. */
  datatype CreateReply = Created(id: string) | CreateError(message: string)

  /** What the platform answers to an append request. */
  datatype AppendReply = Appended | AppendError(message: string)

  datatype Body =
    | ErrorBody(error: string)
    | ErrorWithDetails(error: string, details: string)
    | PageIdBody(pageId: string)
    | SuccessBody

  /**
   * The handler's outcome: an HTTP reply, or Unhandled when the handler
   * throws before it responds (the request is then never answered).
   */
  datatype Response = Reply(status: nat, body: Body) | Unhandled

  /**
   * The whole observable state: the binding map, the requests sent to the
   * platform so far, and the paragraphs appended to each page.
   */
  datatype State = State(
    walletToPage: map<string, string>,
    requests: seq<PlatformRequest>,
    pages: map<string, seq<Block>>)

  const InitialState := State(map[], [], map[])

  /** `walletToPage[key]` read as a JavaScript condition: bound to a non-empty page id. */
  predicate IsBound(walletToPage: map<string, string>, key: string) {
    key in walletToPage && walletToPage[key] != ""
  }

  /** The property key `walletToPage[walletAddress]` reads: an absent address reads key "undefined". */
  function LookupKey(walletAddress: Option<string>): string {
    if walletAddress.Some? then walletAddress.value else "undefined"
  }

  /** The paragraphs a page has received so far. */
  function PageBlocks(pages: map<string, seq<Block>>, pageId: string): seq<Block> {
    if pageId in pages then pages[pageId] else []
  }

  /** The title of the page created for a wallet: the prefix, then `walletAddress.slice(0, 8)`. */
  function PageTitle(wallet: string): (title: string)
    ensures |title| == |TitlePrefix| + Min(8, |wallet|)
    ensures title[..|TitlePrefix|] == TitlePrefix
    ensures title[|TitlePrefix|..] <= wallet
  {
    TitlePrefix + wallet[..Min(8, |wallet|)]
  }

  /** POST /api/create-notion-page, given the platform's reply should it be asked. */
  function CreateStep(st: State, walletAddress: Option<string>, reply: CreateReply): (r: (State, Response))
    // a missing or empty address: 400, no platform call, nothing changes
    ensures !Truthy(walletAddress) ==>
      r.0 == st && r.1 == Reply(400, ErrorBody(MissingWalletError))
    // an address already bound: its page id, no platform call, nothing changes
    ensures Truthy(walletAddress) && IsBound(st.walletToPage, walletAddress.value) ==>
      r.0 == st && r.1 == Reply(200, PageIdBody(st.walletToPage[walletAddress.value]))
    // otherwise exactly one page-creation request, carrying the title and the full address
    ensures Truthy(walletAddress) && !IsBound(st.walletToPage, walletAddress.value) ==>
      r.0.requests == st.requests + [CreatePage(PageTitle(walletAddress.value), walletAddress.value)]
      && r.0.pages == st.pages
    // success binds exactly this address to the new id
    ensures Truthy(walletAddress) && !IsBound(st.walletToPage, walletAddress.value) && reply.Created? ==>
      r.0.walletToPage == st.walletToPage[walletAddress.value := reply.id]
      && r.1 == Reply(200, PageIdBody(reply.id))
    // failure: 500 with the platform's message, no binding
    ensures Truthy(walletAddress) && !IsBound(st.walletToPage, walletAddress.value) && reply.CreateError? ==>
      r.0.walletToPage == st.walletToPage
      && r.1 == Reply(500, ErrorWithDetails(CreateFailedError, reply.message))
  {
    if !Truthy(walletAddress) then
      (st, Reply(400, ErrorBody(MissingWalletError)))
    else
      var wallet := walletAddress.value;
      if IsBound(st.walletToPage, wallet) then
        (st, Reply(200, PageIdBody(st.walletToPage[wallet])))
      else
        var sent := st.(requests := st.requests + [CreatePage(PageTitle(wallet), wallet)]);
        match reply
        case Created(id) =>
          (sent.(walletToPage := st.walletToPage[wallet := id]), Reply(200, PageIdBody(id)))
        case CreateError(message) =>
          (sent, Reply(500, ErrorWithDetails(CreateFailedError, message)))
  }

  /** POST /api/append-note, given the platform's reply should it be asked. */
  function AppendStep(st: State, walletAddress: Option<string>, content: string, reply: AppendReply): (r: (State, Response))
    // the binding map is never modified
    ensures r.0.walletToPage == st.walletToPage
    // no binding: 400 (or a throw when the address itself is absent), no platform call
    ensures !IsBound(st.walletToPage, LookupKey(walletAddress)) ==>
      r.0 == st && r.1 == (if walletAddress.Some? then Reply(400, ErrorBody(NoPageError)) else Unhandled)
    // a binding: exactly one request, appending one paragraph with the content to the bound page
    ensures IsBound(st.walletToPage, LookupKey(walletAddress)) ==>
      r.0.requests == st.requests + [AppendChildren(st.walletToPage[LookupKey(walletAddress)], [Paragraph(content)])]
    ensures IsBound(st.walletToPage, LookupKey(walletAddress)) && reply.Appended? ==>
      var pageId := st.walletToPage[LookupKey(walletAddress)];
      r.0.pages == st.pages[pageId := PageBlocks(st.pages, pageId) + [Paragraph(content)]]
      && r.1 == Reply(200, SuccessBody)
    ensures IsBound(st.walletToPage, LookupKey(walletAddress)) && reply.AppendError? ==>
      r.0.pages == st.pages && r.1 == Reply(500, ErrorWithDetails(AppendFailedError, reply.message))
  {
    var key := LookupKey(walletAddress);
    if !IsBound(st.walletToPage, key) then
      (st, if walletAddress.Some? then Reply(400, ErrorBody(NoPageError)) else Unhandled)
    else
      var pageId := st.walletToPage[key];
      var sent := st.(requests := st.requests + [AppendChildren(pageId, [Paragraph(content)])]);
      match reply
      case Appended =>
        (sent.(pages := st.pages[pageId := PageBlocks(st.pages, pageId) + [Paragraph(content)]]), Reply(200, SuccessBody))
      case AppendError(message) =>
        (sent, Reply(500, ErrorWithDetails(AppendFailedError, message)))
  }

  /**
   * Every bound wallet got its page from a creation request that carried its
   * title and its full address: bindings never appear from anywhere else.
   */
  ghost predicate Provenance(st: State) {
    forall w :: w in st.walletToPage ==> CreatePage(PageTitle(w), w) in st.requests
  }

  lemma InitialProvenance()
    ensures Provenance(InitialState)
  {
  }

  lemma CreatePreservesProvenance(st: State, walletAddress: Option<string>, reply: CreateReply)
    requires Provenance(st)
    ensures Provenance(CreateStep(st, walletAddress, reply).0)
  {
  }

  lemma AppendPreservesProvenance(st: State, walletAddress: Option<string>, content: string, reply: AppendReply)
    requires Provenance(st)
    ensures Provenance(AppendStep(st, walletAddress, content, reply).0)
  {
  }

  /**
   * Sequential creation is idempotent: once a create call has answered 200
   * with a non-empty page id, a second call for the same wallet answers the
   * same, whatever the platform would reply, and changes nothing.
   */
  lemma RepeatedCreateIsIdempotent(st: State, walletAddress: Option<string>, first: CreateReply, second: CreateReply)
    requires CreateStep(st, walletAddress, first).1.Reply?
    requires CreateStep(st, walletAddress, first).1.status == 200
    requires CreateStep(st, walletAddress, first).1.body.PageIdBody?
    requires CreateStep(st, walletAddress, first).1.body.pageId != ""
    ensures CreateStep(CreateStep(st, walletAddress, first).0, walletAddress, second) == CreateStep(st, walletAddress, first)
  {
  }

  /** Handlers for one wallet never read or change another wallet's binding. */
  lemma TenantsAreIndependent(st: State, walletAddress: Option<string>, content: string,
                              created: CreateReply, appended: AppendReply, other: string)
    requires other != LookupKey(walletAddress)
    ensures var after := CreateStep(st, walletAddress, created).0.walletToPage;
      (other in after <==> other in st.walletToPage) && (other in after ==> after[other] == st.walletToPage[other])
    ensures AppendStep(st, walletAddress, content, appended).0.walletToPage == st.walletToPage
  {
  }

  /** Notes appended one after the other land on the page in call order. */
  lemma AppendsKeepCallOrder(st: State, wallet: string, first: string, second: string)
    requires IsBound(st.walletToPage, wallet)
    ensures var pageId := st.walletToPage[wallet];
      var st1 := AppendStep(st, Some(wallet), first, Appended).0;
      var st2 := AppendStep(st1, Some(wallet), second, Appended).0;
      PageBlocks(st2.pages, pageId) == PageBlocks(st.pages, pageId) + [Paragraph(first), Paragraph(second)]
  {
  }

  /** The server process: the module-level `walletToPage` object and the platform it talks to. */
  class NotebookServer {
    var walletToPage: map<string, string>
    ghost var requests: seq<PlatformRequest>
    ghost var pages: map<string, seq<Block>>

    ghost function Snapshot(): State
      reads this
    {
      State(walletToPage, requests, pages)
    }

    ghost predicate Valid()
      reads this
    {
      Provenance(Snapshot())
    }

    constructor ()
      ensures Valid() && Snapshot() == InitialState
    {
      walletToPage := map[];
      requests := [];
      pages := map[];
    }

    method CreateNotionPage(walletAddress: Option<string>, reply: CreateReply) returns (res: Response)
      requires Valid()
      modifies this
      ensures Valid()
      ensures (Snapshot(), res) == CreateStep(old(Snapshot()), walletAddress, reply)
    {
      CreatePreservesProvenance(Snapshot(), walletAddress, reply);
      if !Truthy(walletAddress) {
        return Reply(400, ErrorBody(MissingWalletError));
      }
      var wallet := walletAddress.value;
      if wallet in walletToPage && walletToPage[wallet] != "" {
        return Reply(200, PageIdBody(walletToPage[wallet]));
      }
      requests := requests + [CreatePage(PageTitle(wallet), wallet)];
      match reply {
        case Created(id) =>
          walletToPage := walletToPage[wallet := id];
          res := Reply(200, PageIdBody(id));
        case CreateError(message) =>
          res := Reply(500, ErrorWithDetails(CreateFailedError, message));
      }
    }

    method AppendNote(walletAddress: Option<string>, content: string, reply: AppendReply) returns (res: Response)
      requires Valid()
      modifies this
      ensures Valid()
      ensures (Snapshot(), res) == AppendStep(old(Snapshot()), walletAddress, content, reply)
    {
      AppendPreservesProvenance(Snapshot(), walletAddress, content, reply);
      var key := LookupKey(walletAddress);
      if !(key in walletToPage && walletToPage[key] != "") {
        if walletAddress.None? {
          return Unhandled;
        }
        return Reply(400, ErrorBody(NoPageError));
      }
      var pageId := walletToPage[key];
      requests := requests + [AppendChildren(pageId, [Paragraph(content)])];
      match reply {
        case Appended =>
          pages := pages[pageId := PageBlocks(pages, pageId) + [Paragraph(content)]];
          res := Reply(200, SuccessBody);
        case AppendError(message) =>
          res := Reply(500, ErrorWithDetails(AppendFailedError, message));
      }
    }
  }
}
