/** The dashboard's allocation editor: a local list of tokens, three modal
    dialogs (add, edit, delete) and two input fields. Each handler is a
    state transition; what the server answers is a parameter. */
module TokenManager {
  import opened Common

  /** An amount as the editor holds it: a number from the server, or the
      text typed into the input field. */
  datatype Amount = Num(n: real) | Text(s: string)

  /** JavaScript truthiness of an amount: 0 and the empty text are falsy. */
  predicate Truthy(a: Amount)
  {
    match a
    case Num(n) => n != 0.0
    case Text(s) => s != ""
  }

  /** A token of the list. Tokens from the server carry their database
      `_id`; tokens the editor builds itself carry none. */
  datatype UiToken = UiToken(id: Option<string>, name: string, usdtAmount: Amount)

  /** The list after an edit: every token whose `_id` equals the selected
      one's (two missing ids count as equal) becomes `updated`. */
  function ReplaceById(tokens: seq<UiToken>, id: Option<string>, updated: UiToken): (r: seq<UiToken>)
    ensures |r| == |tokens|
    ensures forall i :: 0 <= i < |r| ==> r[i] == if tokens[i].id == id then updated else tokens[i]
  {
    if tokens == [] then []
    else [if tokens[0].id == id then updated else tokens[0]] + ReplaceById(tokens[1..], id, updated)
  }

  /** The list after a delete: the tokens whose `_id` differs from the
      selected one's, in order. */
  function RemoveById(tokens: seq<UiToken>, id: Option<string>): (r: seq<UiToken>)
    ensures forall t :: t in r <==> t in tokens && t.id != id
    ensures |r| <= |tokens|
  {
    if tokens == [] then []
    else (if tokens[0].id != id then [tokens[0]] else []) + RemoveById(tokens[1..], id)
  }

  /** Number of tokens with the given id. */
  function CountId(tokens: seq<UiToken>, id: Option<string>): nat
  {
    if tokens == [] then 0 else (if tokens[0].id == id then 1 else 0) + CountId(tokens[1..], id)
  }

  /** A delete removes exactly the tokens with the id: the list shrinks by
      their number. */
  lemma {:induction false} RemoveByIdCount(tokens: seq<UiToken>, id: Option<string>)
    ensures |RemoveById(tokens, id)| == |tokens| - CountId(tokens, id)
  {
    if tokens != [] {
      RemoveByIdCount(tokens[1..], id);
    }
  }

  /** Deleting keeps the remaining tokens in their order: removing from a
      concatenation removes from each part. */
  lemma {:induction false} RemoveByIdSplits(a: seq<UiToken>, b: seq<UiToken>, id: Option<string>)
    ensures RemoveById(a + b, id) == RemoveById(a, id) + RemoveById(b, id)
  {
    if a == [] {
      assert a + b == b;
    } else {
      assert (a + b)[1..] == a[1..] + b;
      RemoveByIdSplits(a[1..], b, id);
    }
  }

  /** Once `updated` is in place, a second identical edit changes nothing,
      provided the updated token still carries the id it replaced. */
  lemma ReplaceByIdIdempotent(tokens: seq<UiToken>, id: Option<string>, updated: UiToken)
    requires updated.id == id
    ensures ReplaceById(ReplaceById(tokens, id, updated), id, updated) == ReplaceById(tokens, id, updated)
  {
  }

  /** After an edit no token with the old id is left unless the updated
      token keeps it; and since an edited token has no id, editing a token
      without an id replaces every token without one (for instance all the
      tokens added in this session). */
  lemma {:induction false} EditLeavesNoOldId(tokens: seq<UiToken>, id: Option<string>, updated: UiToken)
    requires updated.id != id
    ensures CountId(ReplaceById(tokens, id, updated), id) == 0
    ensures CountId(ReplaceById(tokens, id, updated), updated.id) == CountId(tokens, updated.id) + CountId(tokens, id)
  {
    if tokens != [] {
      EditLeavesNoOldId(tokens[1..], id, updated);
      assert ReplaceById(tokens, id, updated)[1..] == ReplaceById(tokens[1..], id, updated);
    }
  }

  /** The editor's state and its handlers. */
  class Editor {
    var tokens: seq<UiToken>
    var showAddModal: bool
    var showEditModal: bool
    var showDeleteModal: bool
    var selectedToken: Option<UiToken>
    var newTokenName: string
    var newTokenUsdt: Amount

    /** The initial state; the token list is the `tokenData` received. */
    constructor (tokenData: seq<UiToken>)
      ensures tokens == tokenData
      ensures !showAddModal && !showEditModal && !showDeleteModal
      ensures selectedToken.None? && newTokenName == "" && newTokenUsdt == Text("")
    {
      tokens := tokenData;
      showAddModal := false;
      showEditModal := false;
      showDeleteModal := false;
      selectedToken := None;
      newTokenName := "";
      newTokenUsdt := Text("");
    }

    /** Opening the add dialog clears both inputs. */
    method HandleAddTokenClick()
      modifies this
      ensures showAddModal && newTokenName == "" && newTokenUsdt == Text("")
      ensures tokens == old(tokens) && showEditModal == old(showEditModal)
      ensures showDeleteModal == old(showDeleteModal) && selectedToken == old(selectedToken)
    {
      showAddModal := true;
      newTokenName := "";
      newTokenUsdt := Text("");
    }

    /** Cancel closes every dialog and clears both inputs. */
    method HandleCancel()
      modifies this
      ensures !showAddModal && !showEditModal && !showDeleteModal
      ensures newTokenName == "" && newTokenUsdt == Text("")
      ensures tokens == old(tokens) && selectedToken == old(selectedToken)
    {
      showAddModal := false;
      showEditModal := false;
      showDeleteModal := false;
      newTokenName := "";
      newTokenUsdt := Text("");
    }

    /** Add. With an empty input nothing changes. Otherwise the token is
        posted; the dialog closes only when the server accepted it, but the
        typed token is appended to the list (without an id, and without a
        check for an existing name) either way. */
    method HandleAdd(responseOk: bool)
      modifies this
      ensures newTokenName == old(newTokenName) && newTokenUsdt == old(newTokenUsdt)
      ensures showEditModal == old(showEditModal) && showDeleteModal == old(showDeleteModal)
      ensures selectedToken == old(selectedToken)
      ensures old(newTokenName) == "" || !Truthy(old(newTokenUsdt)) ==>
                tokens == old(tokens) && showAddModal == old(showAddModal)
      ensures old(newTokenName) != "" && Truthy(old(newTokenUsdt)) ==>
                && tokens == old(tokens) + [UiToken(None, old(newTokenName), old(newTokenUsdt))]
                && showAddModal == (old(showAddModal) && !responseOk)
    {
      if newTokenName == "" || !Truthy(newTokenUsdt) {
        return;
      }
      if responseOk {
        showAddModal := false;
      }
      tokens := tokens + [UiToken(None, newTokenName, newTokenUsdt)];
    }

    /** Opening the edit dialog selects the token and fills the inputs with
        its name and amount. */
    method HandleEditTokenClick(token: UiToken)
      modifies this
      ensures selectedToken == Some(token) && newTokenName == token.name && newTokenUsdt == token.usdtAmount
      ensures showEditModal
      ensures tokens == old(tokens) && showAddModal == old(showAddModal) && showDeleteModal == old(showDeleteModal)
    {
      selectedToken := Some(token);
      newTokenName := token.name;
      newTokenUsdt := token.usdtAmount;
      showEditModal := true;
    }

    /** Edit. With an empty input nothing changes. Otherwise the token is
        posted; the dialog closes only when the server accepted it, and
        every token with the selected token's id becomes the typed token
        (without an id) either way. With no token selected the list stays
        as it is. */
    method HandleEdit(responseOk: bool)
      modifies this
      ensures newTokenName == old(newTokenName) && newTokenUsdt == old(newTokenUsdt)
      ensures showAddModal == old(showAddModal) && showDeleteModal == old(showDeleteModal)
      ensures selectedToken == old(selectedToken)
      ensures old(newTokenName) == "" || !Truthy(old(newTokenUsdt)) ==>
                tokens == old(tokens) && showEditModal == old(showEditModal)
      ensures old(newTokenName) != "" && Truthy(old(newTokenUsdt)) ==>
                && showEditModal == (old(showEditModal) && !responseOk)
                && tokens == (if selectedToken.None? then old(tokens)
                              else ReplaceById(old(tokens), selectedToken.value.id,
                                               UiToken(None, old(newTokenName), old(newTokenUsdt))))
    {
      if newTokenName == "" || !Truthy(newTokenUsdt) {
        return;
      }
      if responseOk {
        showEditModal := false;
      }
      if selectedToken.Some? {
        tokens := ReplaceById(tokens, selectedToken.value.id, UiToken(None, newTokenName, newTokenUsdt));
      }
    }

    /** Opening the delete dialog selects the token. */
    method HandleDeleteTokenClick(token: UiToken)
      modifies this
      ensures selectedToken == Some(token) && showDeleteModal
      ensures tokens == old(tokens) && showAddModal == old(showAddModal) && showEditModal == old(showEditModal)
      ensures newTokenName == old(newTokenName) && newTokenUsdt == old(newTokenUsdt)
    {
      selectedToken := Some(token);
      showDeleteModal := true;
    }

    /** Delete. Only when a token is selected and the server accepted the
        delete are the tokens with its id removed and the dialog closed;
        otherwise nothing changes. */
    method HandleDelete(responseOk: bool)
      modifies this
      ensures selectedToken.Some? && responseOk ==>
                tokens == RemoveById(old(tokens), selectedToken.value.id) && !showDeleteModal
      ensures selectedToken.None? || !responseOk ==>
                tokens == old(tokens) && showDeleteModal == old(showDeleteModal)
      ensures showAddModal == old(showAddModal) && showEditModal == old(showEditModal)
      ensures selectedToken == old(selectedToken)
      ensures newTokenName == old(newTokenName) && newTokenUsdt == old(newTokenUsdt)
    {
      if selectedToken.None? || !responseOk {
        return;
      }
      tokens := RemoveById(tokens, selectedToken.value.id);
      showDeleteModal := false;
    }
  }
}
