/** The requirement store of routes/requirements.py: the module-level list of
    requirement records, the reference lists they are validated against, the
    image table, and the list/get/create/update/delete handlers with their
    role and ownership checks. */
module Requirements {
  import opened Http
  import Search

  /** One entry of a reference list (a metal, a handle or a cutlery type). */
  datatype RefEntry = RefEntry(id: int, name: string)

  /** The three reference lists, loaded once and never changed. */
  datatype Catalog = Catalog(metals: seq<RefEntry>, handles: seq<RefEntry>, cutleryTypes: seq<RefEntry>)

  /** A stored requirement record. */
  datatype Req = Req(
    id: int,
    username: string,
    metal: string,
    handle: string,
    cutleryType: string,
    quantity: int,
    imageUrl: Option<string>)

  /** The payload a regular user sends; it carries no owner. */
  datatype UserPayload = UserPayload(metal: string, handle: string, cutleryType: string, quantity: int)

  /** The payload an admin sends; it names the owner. */
  datatype AdminPayload = AdminPayload(username: string, metal: string, handle: string, cutleryType: string, quantity: int)

  /** The authenticated user a handler acts for. */
  datatype Caller = Caller(username: string, isAdmin: bool)

  // ---------------------------------------------------------------------
  // Image table (`get_image_url`)
  // ---------------------------------------------------------------------

  const ImageUrls: map<(string, string, string), string> :=
    map[
      ("Silver", "Plastic", "Spoon") := "https://cdn.discordapp.com/attachments/1170248640145670164/1170251885895221248/image.png?ex=65585cff&is=6545e7ff&hm=35ce0d41b0a05edd757f4933f7464cef81d86a5dbc7c5aa63d079d894eef86e6&",
      ("Silver", "Plastic", "Fork") := "https://cdn.discordapp.com/attachments/1170248640145670164/1170251192945877022/2Q.png?ex=65585c5a&is=6545e75a&hm=10c864dd7a63859ba07959b8ea5412f17ef77af10c8d39dbd85253ddc4977ae1&",
      ("Silver", "Plastic", "Knife") := "https://cdn.discordapp.com/attachments/1170248640145670164/1170248662912340029/51v6Oc0aJ4L.png?ex=655859ff&is=6545e4ff&hm=94d95f49a27416e26fe4b1ae956bb8031180dc249df6a6a86eab0fd46f8e8a18&",
      ("Silver", "Wood", "Spoon") := "https://cdn.discordapp.com/attachments/1170248640145670164/1170251951238291598/stainless-steel-spoon-wood-handle-500x500.png?ex=65585d0f&is=6545e80f&hm=bf8d766da91daf6604761d99759a911585e254928a559b48236559999991002b&",
      ("Silver", "Wood", "Fork") := "https://cdn.discordapp.com/attachments/1170248640145670164/1170250147846959114/DALLE_2023-11-04_13.35.31_-_wood_handle_silver_fork_with_white_background.png?ex=65585b61&is=6545e661&hm=f354bfa6fed8d52668e25bd139c6caaa75721ac651040c09bd436639b2db3210&",
      ("Silver", "Wood", "Knife") := "https://cdn.discordapp.com/attachments/1170248640145670164/1170248812804178030/4b90bae6-95a3-4633-901c-dd2ea06d4079_1200x1200.png?ex=65585a23&is=6545e523&hm=3bdc221f66aa612d84fa3aa7342fc7fe4a05d4feebff2e71089e46217b1bea6c&",
      ("Stainless Steel", "Plastic", "Spoon") := "https://cdn.discordapp.com/attachments/1170248640145670164/1170251787270377495/slpba211.png?ex=65585ce8&is=6545e7e8&hm=99166ab01788d46eae608128ff745d6f20b1bda84fd7fa8c1da3bbb69a22e6c7&",
      ("Stainless Steel", "Plastic", "Fork") := "https://cdn.discordapp.com/attachments/1170248640145670164/1170251199279288360/images.png?ex=65585c5c&is=6545e75c&hm=74c0d129252bafd4bbd5a34cf4e422ff59049eb591bd51c4066a7316ea21167f&",
      ("Stainless Steel", "Plastic", "Knife") := "https://cdn.discordapp.com/attachments/1170248640145670164/1170248899919872070/415IEhFdYtL.png?ex=65585a37&is=6545e537&hm=b8d57c9c5dad0ec72e213b2b9cd6e9bdd9c3eebc82da7607a822831597c53f6b&",
      ("Stainless Steel", "Wood", "Spoon") := "https://media.discordapp.net/attachments/1170248640145670164/1170251681586491453/417djo180-L.png?ex=65585ccf&is=6545e7cf&hm=03d35e08dabb4d79194c45b656bf8a144c0708d268128742d0cd95367430339d&=&width=656&height=656",
      ("Stainless Steel", "Wood", "Fork") := "https://cdn.discordapp.com/attachments/1170248640145670164/1170251578230452245/1957080.png?ex=65585cb6&is=6545e7b6&hm=eeee1586eb04ddc3d001e96d890640ef54c6254a4ebb3b80ab253833f7066e2d&",
      ("Stainless Steel", "Wood", "Knife") := "https://cdn.discordapp.com/attachments/1170248640145670164/1170249065523597312/1823130.png?ex=65585a5f&is=6545e55f&hm=bb5b5aabe6d2dd0a6188860ac01adb8bebc5e24b79379c9dc9e2cbd8b3a79755&"
    ]

  /** The URL the table holds for a (metal, handle, cutlery type) triple, or
      None for a triple the table does not list. */
  function GetImageUrl(metal: string, handle: string, cutleryType: string): (r: Option<string>)
    ensures r.Some? <==>
      (metal == "Silver" || metal == "Stainless Steel") &&
      (handle == "Plastic" || handle == "Wood") &&
      (cutleryType == "Spoon" || cutleryType == "Fork" || cutleryType == "Knife")
    ensures r.Some? ==> r.value == ImageUrls[(metal, handle, cutleryType)]
  {
    if (metal, handle, cutleryType) in ImageUrls then Some(ImageUrls[(metal, handle, cutleryType)]) else None
  }

  // ---------------------------------------------------------------------
  // Validation against the reference lists (`validate_input`)
  // ---------------------------------------------------------------------

  /** The `name` column of a reference list, in order. */
  function Names(entries: seq<RefEntry>): seq<string>
  {
    seq(|entries|, i requires 0 <= i < |entries| => entries[i].name)
  }

  /** `value` is the name of some entry of the list. */
  ghost predicate Listed(value: string, entries: seq<RefEntry>)
  {
    exists i :: 0 <= i < |entries| && entries[i].name == value
  }

  /** The detail of the 422 `validate_input` raises for a field. */
  function NotInList(fieldName: string): string
  {
    fieldName + " not found in the list"
  }

  /** Passes exactly when `value` names an entry of the list; otherwise fails
      with 422 and a detail naming the field. */
  function ValidateInput(value: string, entries: seq<RefEntry>, fieldName: string): (r: Outcome)
    ensures r.Pass? <==> Listed(value, entries)
    ensures r.Fail? ==> r.error == Unprocessable(NotInList(fieldName))
  {
    var names := Names(entries);
    if value in names then
      assert names[IndexOf(names, value)] == value;
      Pass
    else
      assert forall i :: 0 <= i < |entries| ==> names[i] == entries[i].name;
      Fail(Unprocessable(NotInList(fieldName)))
  }

  /** A position of `x` in `s`; a proof helper for `ValidateInput`. */
  function IndexOf(s: seq<string>, x: string): (i: nat)
    requires x in s
    ensures i < |s| && s[i] == x
  {
    if s[0] == x then 0 else 1 + IndexOf(s[1..], x)
  }

  /** All three choices name entries of their reference lists. */
  ghost predicate ValidChoices(c: Catalog, metal: string, handle: string, cutleryType: string)
  {
    Listed(handle, c.handles) && Listed(metal, c.metals) && Listed(cutleryType, c.cutleryTypes)
  }

  /** The three `validate_input` calls every create and update makes, in the
      source's order: handle, then metal, then cutlery type. The first list
      that does not contain its value decides the error. */
  function ValidateChoices(c: Catalog, metal: string, handle: string, cutleryType: string): (r: Outcome)
    ensures r.Pass? <==> ValidChoices(c, metal, handle, cutleryType)
    ensures !Listed(handle, c.handles) ==>
      r == Fail(Unprocessable(NotInList("handle")))
    ensures Listed(handle, c.handles) && !Listed(metal, c.metals) ==>
      r == Fail(Unprocessable(NotInList("metal")))
    ensures Listed(handle, c.handles) && Listed(metal, c.metals) && !Listed(cutleryType, c.cutleryTypes) ==>
      r == Fail(Unprocessable(NotInList("cutlery_type")))
  {
    match ValidateInput(handle, c.handles, "handle")
    case Fail(e) => Fail(e)
    case Pass =>
      match ValidateInput(metal, c.metals, "metal")
      case Fail(e) => Fail(e)
      case Pass => ValidateInput(cutleryType, c.cutleryTypes, "cutlery_type")
  }

  // ---------------------------------------------------------------------
  // Lookup and ownership
  // ---------------------------------------------------------------------

  /** The position of the first record whose id is `id`
      (`next((req for req in requirements if req.get("id") == id), None)`). */
  function Find(s: seq<Req>, id: int): (r: Option<nat>)
    ensures r.Some? ==> r.value < |s| && s[r.value].id == id
    ensures r.Some? ==> forall j :: 0 <= j < r.value ==> s[j].id != id
    ensures r.None? <==> !HasId(s, id)
  {
    Search.FirstIndex(s, (q: Req) => q.id == id)
  }

  ghost predicate HasId(s: seq<Req>, id: int)
  {
    exists k :: 0 <= k < |s| && s[k].id == id
  }

  /** The caller owns the record or is an admin. */
  predicate MayModify(caller: Caller, r: Req)
  {
    r.username == caller.username || caller.isAdmin
  }

  // ---------------------------------------------------------------------
  // Listing (`retrieve_all_requirements`)
  // ---------------------------------------------------------------------

  /** The records owned by `username`, in storage order. */
  function OwnedBy(s: seq<Req>, username: string): (r: seq<Req>)
    ensures |r| <= |s|
    ensures forall k :: 0 <= k < |r| ==> r[k].username == username && r[k] in s
  {
    if s == [] then []
    else (if s[0].username == username then [s[0]] else []) + OwnedBy(s[1..], username)
  }

  /** Filtering distributes over concatenation, so it keeps storage order. */
  lemma {:induction false} OwnedByConcat(a: seq<Req>, b: seq<Req>, username: string)
    ensures OwnedBy(a + b, username) == OwnedBy(a, username) + OwnedBy(b, username)
  {
    if a == [] {
      assert a + b == b;
    } else {
      assert (a + b)[1..] == a[1..] + b;
      OwnedByConcat(a[1..], b, username);
    }
  }

  /** No record the user owns is dropped. */
  lemma {:induction false} OwnedByComplete(s: seq<Req>, username: string)
    ensures forall k :: 0 <= k < |s| && s[k].username == username ==> s[k] in OwnedBy(s, username)
  {
    if s != [] {
      OwnedByComplete(s[1..], username);
      forall k | 0 <= k < |s| && s[k].username == username
        ensures s[k] in OwnedBy(s, username)
      {
        if k > 0 {
          assert s[k] == s[1..][k - 1];
        }
      }
    }
  }

  /** A list the user owns entirely is returned whole. */
  lemma {:induction false} OwnedByAllOwned(s: seq<Req>, username: string)
    requires forall k :: 0 <= k < |s| ==> s[k].username == username
    ensures OwnedBy(s, username) == s
  {
    if s != [] {
      OwnedByAllOwned(s[1..], username);
    }
  }

  /** What `GET /requirements/` returns: the whole list for an admin; for
      anyone else exactly the records they own, and nothing of another user. */
  function RetrieveAllRequirements(s: seq<Req>, caller: Caller): (r: seq<Req>)
    ensures caller.isAdmin ==> r == s
    ensures !caller.isAdmin ==> forall k :: 0 <= k < |r| ==> r[k].username == caller.username && r[k] in s
    ensures !caller.isAdmin ==> forall k :: 0 <= k < |s| && s[k].username == caller.username ==> s[k] in r
  {
    if caller.isAdmin then s
    else
      OwnedByComplete(s, caller.username);
      OwnedBy(s, caller.username)
  }

  // ---------------------------------------------------------------------
  // Single lookup (`retrieve_requirement`)
  // ---------------------------------------------------------------------

  const NotFoundOrUnauthorized := "Requirement with supplied ID does not exist or unauthorized access"

  /** What `GET /requirements/{id}` returns. An admin gets the first record
      with that id; a non-admin gets it only if they own it, and 404 otherwise,
      whether the id is missing or the record is someone else's. An admin
      asking for a missing id reaches `Requirement(**None)`, an unhandled
      exception: a 500. */
  function RetrieveRequirement(s: seq<Req>, id: int, caller: Caller): (r: Result<Req>)
    ensures r.Ok? ==> r.value.id == id && MayModify(caller, r.value)
    ensures r.Ok? ==> exists k :: 0 <= k < |s| && s[k] == r.value && forall j :: 0 <= j < k ==> s[j].id != id
    ensures caller.isAdmin ==> (r.Ok? <==> HasId(s, id))
    ensures caller.isAdmin && !HasId(s, id) ==> r == Err(ServerError)
    ensures !caller.isAdmin && r.Err? ==> r.error == NotFound(NotFoundOrUnauthorized)
    ensures !caller.isAdmin && !HasId(s, id) ==> r.Err?
    ensures !caller.isAdmin && HasId(s, id) ==> (r.Ok? <==> s[Find(s, id).value].username == caller.username)
  {
    var found := Find(s, id);
    if caller.isAdmin then
      if found.Some? then Ok(s[found.value]) else Err(ServerError)
    else if found.Some? && s[found.value].username == caller.username then
      Ok(s[found.value])
    else
      Err(NotFound(NotFoundOrUnauthorized))
  }

  /** `retrieve_requirement` as written. The ownership test reads the caller
      as `user["username"]`, but the caller is a pydantic model, which cannot
      be indexed; so a non-admin asking for any id that exists, their own
      record or another user's, gets a TypeError: a 500. Only a missing id
      short-circuits before the index and gives the 404. */
  function RetrieveRequirementAsWritten(s: seq<Req>, id: int, caller: Caller): (r: Result<Req>)
    ensures caller.isAdmin ==> r == RetrieveRequirement(s, id, caller)
    ensures !caller.isAdmin && !HasId(s, id) ==> r == RetrieveRequirement(s, id, caller)
    ensures !caller.isAdmin && HasId(s, id) ==> r == Err(ServerError)
    ensures !caller.isAdmin ==> r.Err?
  {
    var found := Find(s, id);
    if caller.isAdmin then
      if found.Some? then Ok(s[found.value]) else Err(ServerError)
    else if found.Some? then
      Err(ServerError)
    else
      Err(NotFound(NotFoundOrUnauthorized))
  }

  /** An owner asking for their own record: the intended lookup returns it,
      the code as written answers 500. */
  lemma OwnRecordAsWritten(r: Req)
    ensures RetrieveRequirement([r], r.id, Caller(r.username, false)) == Ok(r)
    ensures RetrieveRequirementAsWritten([r], r.id, Caller(r.username, false)) == Err(ServerError)
  {
  }

  // ---------------------------------------------------------------------
  // Create (`create_requirement`)
  // ---------------------------------------------------------------------

  const AdminPayloadRequired := "requirement_admin_data is required for admin user"
  const UserPayloadRequired := "requirement_user_data is required for regular user"

  /** The record `create_requirement` builds for a store of `count` records, or
      its error. The role decides which payload is read: an admin's names the
      owner, a regular user's owner is forced to the caller. A missing payload
      fails before any validation; an invalid choice fails with the error of
      the first list that rejects it. */
  function NewRequirement(count: nat, c: Catalog, caller: Caller,
                          userData: Option<UserPayload>, adminData: Option<AdminPayload>): (r: Result<Req>)
    ensures caller.isAdmin && adminData.None? ==> r == Err(Unprocessable(AdminPayloadRequired))
    ensures !caller.isAdmin && userData.None? ==> r == Err(Unprocessable(UserPayloadRequired))
    ensures caller.isAdmin && adminData.Some? ==>
      var p := adminData.value;
      match ValidateChoices(c, p.metal, p.handle, p.cutleryType)
      case Fail(e) => r == Err(e)
      case Pass => (r.Ok? && r.value.username == p.username
        && r.value.metal == p.metal && r.value.handle == p.handle
        && r.value.cutleryType == p.cutleryType && r.value.quantity == p.quantity)
    ensures !caller.isAdmin && userData.Some? ==>
      var p := userData.value;
      match ValidateChoices(c, p.metal, p.handle, p.cutleryType)
      case Fail(e) => r == Err(e)
      case Pass => (r.Ok? && r.value.username == caller.username
        && r.value.metal == p.metal && r.value.handle == p.handle
        && r.value.cutleryType == p.cutleryType && r.value.quantity == p.quantity)
    ensures r.Ok? ==> r.value.id == count + 1
    ensures r.Ok? ==> r.value.imageUrl == GetImageUrl(r.value.metal, r.value.handle, r.value.cutleryType)
    ensures r.Ok? ==> ValidChoices(c, r.value.metal, r.value.handle, r.value.cutleryType)
    ensures r.Err? ==> r.error.Unprocessable?
  {
    if caller.isAdmin then
      match adminData
      case None => Err(Unprocessable(AdminPayloadRequired))
      case Some(p) =>
        match ValidateChoices(c, p.metal, p.handle, p.cutleryType)
        case Fail(e) => Err(e)
        case Pass =>
          Ok(Req(count + 1, p.username, p.metal, p.handle, p.cutleryType, p.quantity,
                 GetImageUrl(p.metal, p.handle, p.cutleryType)))
    else
      match userData
      case None => Err(Unprocessable(UserPayloadRequired))
      case Some(p) =>
        match ValidateChoices(c, p.metal, p.handle, p.cutleryType)
        case Fail(e) => Err(e)
        case Pass =>
          Ok(Req(count + 1, caller.username, p.metal, p.handle, p.cutleryType, p.quantity,
                 GetImageUrl(p.metal, p.handle, p.cutleryType)))
  }

  // ---------------------------------------------------------------------
  // Update (`update_requirement`)
  // ---------------------------------------------------------------------

  const EditNotFound := "Requirement with supplied ID does not exist"
  const EditForbidden := "You do not have permission to edit this requirement"

  /** A record after an edit: the payload's fields and a recomputed image URL
      replace the old ones; the id and the owner stay. */
  function Edited(r: Req, data: UserPayload): (e: Req)
    ensures e.id == r.id && e.username == r.username
    ensures e.metal == data.metal && e.handle == data.handle
    ensures e.cutleryType == data.cutleryType && e.quantity == data.quantity
    ensures e.imageUrl == GetImageUrl(data.metal, data.handle, data.cutleryType)
  {
    r.(metal := data.metal, handle := data.handle, cutleryType := data.cutleryType,
       quantity := data.quantity, imageUrl := GetImageUrl(data.metal, data.handle, data.cutleryType))
  }

  /** The position `update_requirement` edits, or its error. Validation comes
      first, so a bad choice gives 422 even for an unknown id; then an unknown
      id gives 404; then a caller who neither owns the record nor is an admin
      gets 403. */
  function UpdateTarget(s: seq<Req>, c: Catalog, id: int, data: UserPayload, caller: Caller): (r: Result<nat>)
    ensures ValidateChoices(c, data.metal, data.handle, data.cutleryType).Fail? ==>
      r == Err(ValidateChoices(c, data.metal, data.handle, data.cutleryType).error)
    ensures ValidChoices(c, data.metal, data.handle, data.cutleryType) && !HasId(s, id) ==>
      r == Err(NotFound(EditNotFound))
    ensures ValidChoices(c, data.metal, data.handle, data.cutleryType) && HasId(s, id) ==>
      var k := Find(s, id).value;
      if MayModify(caller, s[k]) then r == Ok(k) else r == Err(Forbidden(EditForbidden))
    ensures r.Ok? ==> r.value < |s| && s[r.value].id == id && MayModify(caller, s[r.value])
  {
    match ValidateChoices(c, data.metal, data.handle, data.cutleryType)
    case Fail(e) => Err(e)
    case Pass =>
      match Find(s, id)
      case None => Err(NotFound(EditNotFound))
      case Some(k) =>
        if s[k].username != caller.username && !caller.isAdmin then Err(Forbidden(EditForbidden))
        else Ok(k)
  }

  // ---------------------------------------------------------------------
  // Delete (`delete_requirement`, `list.remove`, `reassign_ids`)
  // ---------------------------------------------------------------------

  const DeleteForbidden := "You do not have permission to delete this requirement"
  const Deleted := "Requirement deleted successfully"

  /** The position `delete_requirement` removes, or its error. A missing id and
      a caller who neither owns the record nor is an admin both give 403. */
  function DeleteTarget(s: seq<Req>, id: int, caller: Caller): (r: Result<nat>)
    ensures r.Err? ==> r.error == Forbidden(DeleteForbidden)
    ensures !HasId(s, id) ==> r.Err?
    ensures HasId(s, id) ==> (r.Ok? <==> MayModify(caller, s[Find(s, id).value]))
    ensures r.Ok? ==> r.value < |s| && s[r.value].id == id && MayModify(caller, s[r.value])
    ensures r.Ok? ==> forall j :: 0 <= j < r.value ==> s[j].id != id
  {
    match Find(s, id)
    case None => Err(Forbidden(DeleteForbidden))
    case Some(k) =>
      if s[k].username != caller.username && !caller.isAdmin then Err(Forbidden(DeleteForbidden))
      else Ok(k)
  }

  /** Python's `list.remove(x)`: drop the first element equal to `x`. */
  function RemoveFirst(s: seq<Req>, x: Req): (r: seq<Req>)
    ensures x in s ==> |r| == |s| - 1
    ensures x !in s ==> r == s
    ensures forall k :: 0 <= k < |s| && s[k] == x && x !in s[..k] ==> r == s[..k] + s[k + 1..]
  {
    if s == [] then []
    else if s[0] == x then
      assert forall k :: 0 < k < |s| ==> s[0] == s[..k][0];
      s[1..]
    else
      var rest := RemoveFirst(s[1..], x);
      assert forall k :: 0 < k < |s| && x !in s[..k] ==> x !in s[1..][..k - 1] by {
        forall k | 0 < k < |s| && x !in s[..k] ensures x !in s[1..][..k - 1] {
          SpliceTail(s, k);
        }
      }
      assert forall k :: 0 < k < |s| ==> [s[0]] + (s[1..][..k - 1] + s[1..][k..]) == s[..k] + s[k + 1..] by {
        forall k | 0 < k < |s| ensures [s[0]] + (s[1..][..k - 1] + s[1..][k..]) == s[..k] + s[k + 1..] {
          SpliceTail(s, k);
        }
      }
      [s[0]] + rest
  }

  /** Slicing facts behind `RemoveFirst`: position `k` of `s` is position
      `k - 1` of its tail. */
  lemma SpliceTail(s: seq<Req>, k: nat)
    requires 0 < k < |s|
    ensures s[1..][..k - 1] == s[1..k] && s[..k] == [s[0]] + s[1..k]
    ensures [s[0]] + (s[1..][..k - 1] + s[1..][k..]) == s[..k] + s[k + 1..]
  {
    assert s[1..][k..] == s[k + 1..];
  }

  /** Removing the record found by id removes exactly that position: any equal
      record before it would carry the same id. */
  lemma RemoveFirstFound(s: seq<Req>, k: nat)
    requires k < |s|
    requires forall j :: 0 <= j < k ==> s[j].id != s[k].id
    ensures RemoveFirst(s, s[k]) == s[..k] + s[k + 1..]
  {
    assert forall j :: 0 <= j < k ==> s[..k][j] != s[k];
  }

  /** Every record of `s` starts with the id of its position: 1, 2, ..., N. */
  ghost predicate IdsDense(s: seq<Req>)
  {
    forall i :: 0 <= i < |s| ==> s[i].id == i + 1
  }

  /** `reassign_ids`: the same records with ids 1..N by position. */
  function Renumbered(s: seq<Req>): (r: seq<Req>)
    ensures |r| == |s| && IdsDense(r)
    ensures forall i :: 0 <= i < |s| ==> r[i].(id := s[i].id) == s[i]
  {
    seq(|s|, i requires 0 <= i < |s| => s[i].(id := i + 1))
  }

  /** The list after a delete at position `k`: one record shorter, the
      survivors in their old relative order, renumbered 1..N-1. */
  function AfterDelete(s: seq<Req>, k: nat): (r: seq<Req>)
    requires k < |s|
    ensures |r| == |s| - 1 && IdsDense(r)
    ensures forall j :: 0 <= j < k ==> r[j].(id := s[j].id) == s[j]
    ensures forall j :: k <= j < |r| ==> r[j].(id := s[j + 1].id) == s[j + 1]
  {
    var rest := s[..k] + s[k + 1..];
    assert forall j :: k <= j < |rest| ==> rest[j] == s[j + 1];
    Renumbered(rest)
  }

  // ---------------------------------------------------------------------
  // The store
  // ---------------------------------------------------------------------

  /** The module-level `requirements` list and the reference lists beside it. */
  class RequirementStore {
    var requirements: seq<Req>
    const catalog: Catalog

    constructor (initial: seq<Req>, catalog: Catalog)
      ensures requirements == initial && this.catalog == catalog
    {
      requirements := initial;
      this.catalog := catalog;
    }

    /** `POST /requirements/new`: append the new record at the end, or change
        nothing. */
    method Create(userData: Option<UserPayload>, adminData: Option<AdminPayload>, caller: Caller)
      returns (r: Result<Req>)
      modifies this
      ensures r == NewRequirement(|old(requirements)|, catalog, caller, userData, adminData)
      ensures r.Ok? ==> requirements == old(requirements) + [r.value]
      ensures r.Err? ==> requirements == old(requirements)
      ensures r.Ok? && IdsDense(old(requirements)) ==> IdsDense(requirements)
    {
      r := NewRequirement(|requirements|, catalog, caller, userData, adminData);
      if r.Ok? {
        requirements := requirements + [r.value];
      }
    }

    /** `PUT /requirements/edit/{id}`: overwrite the payload's fields of the
        first record with that id, keep its id and owner, recompute its image
        URL; on an error change nothing. */
    method Update(id: int, data: UserPayload, caller: Caller) returns (r: Result<Req>)
      modifies this
      ensures var t := UpdateTarget(old(requirements), catalog, id, data, caller);
        match t
        case Err(e) => r == Err(e) && requirements == old(requirements)
        case Ok(k) =>
          requirements == old(requirements)[k := Edited(old(requirements)[k], data)] &&
          r == Ok(requirements[k])
      ensures |requirements| == |old(requirements)|
      ensures IdsDense(old(requirements)) ==> IdsDense(requirements)
    {
      var t := UpdateTarget(requirements, catalog, id, data, caller);
      match t
      case Err(e) => r := Err(e);
      case Ok(k) =>
        // the payload's keys are written one by one into the stored record
        var existing := requirements[k];
        existing := existing.(metal := data.metal);
        existing := existing.(handle := data.handle);
        existing := existing.(cutleryType := data.cutleryType);
        existing := existing.(quantity := data.quantity);
        existing := existing.(imageUrl := GetImageUrl(data.metal, data.handle, data.cutleryType));
        requirements := requirements[k := existing];
        r := Ok(existing);
    }

    /** `DELETE /requirements/delete/{id}`: remove the first record with that
        id and renumber the rest; on an error change nothing. */
    method Delete(id: int, caller: Caller) returns (r: Result<string>)
      modifies this
      ensures var t := DeleteTarget(old(requirements), id, caller);
        match t
        case Err(e) => r == Err(e) && requirements == old(requirements)
        case Ok(k) => r == Ok(Deleted) && requirements == AfterDelete(old(requirements), k)
    {
      var t := DeleteTarget(requirements, id, caller);
      match t
      case Err(e) => r := Err(e);
      case Ok(k) =>
        RemoveFirstFound(requirements, k);
        requirements := RemoveFirst(requirements, requirements[k]);
        ReassignIds();
        r := Ok(Deleted);
    }

    /** `reassign_ids`: set each record's id to its 1-based position. */
    method ReassignIds()
      modifies this
      ensures requirements == Renumbered(old(requirements))
    {
      var i := 0;
      while i < |requirements|
        invariant 0 <= i <= |requirements| == |old(requirements)|
        invariant forall j :: 0 <= j < i ==> requirements[j] == old(requirements)[j].(id := j + 1)
        invariant forall j :: i <= j < |requirements| ==> requirements[j] == old(requirements)[j]
      {
        requirements := requirements[i := requirements[i].(id := i + 1)];
        i := i + 1;
      }
    }
  }
}
