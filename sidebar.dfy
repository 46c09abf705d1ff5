/** The conversation search box of the sidebar (src/components/ChatSidebar.tsx): the query
    is trimmed and lower-cased; an empty query shows every conversation, any other keeps, in
    order, the conversations whose lower-cased title contains it. */
module Sidebar {
  import opened Common
  import opened ChatModel

  /** The query as the filter uses it. */
  function NormalizedQuery(query: string): string {
    ToLower(Trim(query))
  }

  predicate TitleMatches(c: Conversation, q: string) {
    Contains(ToLower(c.title), q)
  }

  /** `conversations.filter(c => c.title.toLowerCase().includes(q))`. */
  function KeepMatching(convs: seq<Conversation>, q: string): (r: seq<Conversation>)
    ensures |r| <= |convs|
    ensures forall k :: 0 <= k < |r| ==> TitleMatches(r[k], q)
  {
    if convs == [] then []
    else
      var rest := KeepMatching(convs[1..], q);
      if TitleMatches(convs[0], q) then [convs[0]] + rest else rest
  }

  /** `filteredConversations`. */
  function FilterConversations(convs: seq<Conversation>, query: string): (r: seq<Conversation>)
    ensures NormalizedQuery(query) == "" ==> r == convs
    ensures NormalizedQuery(query) != "" ==> forall k :: 0 <= k < |r| ==> TitleMatches(r[k], NormalizedQuery(query))
  {
    var q := NormalizedQuery(query);
    if q == "" then convs else KeepMatching(convs, q)
  }

  /** `a` is `b` with some elements left out, the rest in their order. */
  predicate SubList(a: seq<Conversation>, b: seq<Conversation>)
    decreases |b|
  {
    if a == [] then true
    else if b == [] then false
    else (a[0] == b[0] && SubList(a[1..], b[1..])) || SubList(a, b[1..])
  }

  lemma SubListTail(a: seq<Conversation>, b: seq<Conversation>)
    requires b != [] && SubList(a, b[1..])
    ensures SubList(a, b)
  {
  }

  /** The result is the conversation list with some entries left out and the rest in order. */
  lemma {:induction false} FilterIsSubList(convs: seq<Conversation>, query: string)
    ensures SubList(FilterConversations(convs, query), convs)
  {
    var q := NormalizedQuery(query);
    if q == "" {
      SubListRefl(convs);
    } else {
      KeepIsSubList(convs, q);
    }
  }

  lemma {:induction false} SubListRefl(s: seq<Conversation>)
    ensures SubList(s, s)
    decreases |s|
  {
    if s != [] {
      SubListRefl(s[1..]);
    }
  }

  lemma {:induction false} KeepIsSubList(convs: seq<Conversation>, q: string)
    ensures SubList(KeepMatching(convs, q), convs)
    decreases |convs|
  {
    if convs != [] {
      KeepIsSubList(convs[1..], q);
      if !TitleMatches(convs[0], q) && KeepMatching(convs, q) != [] {
        SubListTail(KeepMatching(convs, q), convs);
      }
    }
  }

  lemma {:induction false} KeepMembership(convs: seq<Conversation>, q: string, c: Conversation)
    ensures c in KeepMatching(convs, q) <==> c in convs && TitleMatches(c, q)
    decreases |convs|
  {
    if convs != [] {
      KeepMembership(convs[1..], q, c);
      assert convs == [convs[0]] + convs[1..];
    }
  }

  /** With a non-empty query, a conversation is shown exactly when it is in the list and its
      lower-cased title contains the trimmed, lower-cased query. */
  lemma FilterMembership(convs: seq<Conversation>, query: string, c: Conversation)
    ensures c in FilterConversations(convs, query) <==>
      c in convs && (NormalizedQuery(query) == "" || TitleMatches(c, NormalizedQuery(query)))
  {
    if NormalizedQuery(query) != "" {
      KeepMembership(convs, NormalizedQuery(query), c);
    }
  }

  lemma {:induction false} KeepIdempotent(convs: seq<Conversation>, q: string)
    ensures KeepMatching(KeepMatching(convs, q), q) == KeepMatching(convs, q)
    decreases |convs|
  {
    if convs != [] {
      KeepIdempotent(convs[1..], q);
      var rest := KeepMatching(convs[1..], q);
      if TitleMatches(convs[0], q) {
        assert ([convs[0]] + rest)[1..] == rest;
      }
    }
  }

  /** Filtering the filtered list again with the same query changes nothing. */
  lemma FilterIdempotent(convs: seq<Conversation>, query: string)
    ensures FilterConversations(FilterConversations(convs, query), query) == FilterConversations(convs, query)
  {
    if NormalizedQuery(query) != "" {
      KeepIdempotent(convs, NormalizedQuery(query));
    }
  }
}
