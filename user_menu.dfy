/** The user menu: choosing a role (DayMaker, family member or client) and the
    video position it takes, the per-role position submenu, and the video,
    camera and sign-out entries.  Callbacks to the application are returned as
    values: the events the menu emits, in order. */
module UserMenu {
  import opened Common

  datatype RoleId = DayMaker | Me | Family | Client

  datatype VideoPosition = Center | TopLeft | TopRight

  datatype UserRole = UserRole(id: RoleId, name: string, position: VideoPosition, color: string)

  /** The roles the menu offers; `me` is a valid id but has no entry. */
  const Roles: seq<UserRole> := [
    UserRole(DayMaker, "DayMaker", Center, "bg-gradient-to-r from-cyan-500 to-purple-500"),
    UserRole(Family, "Family Member", TopLeft, "bg-gradient-to-r from-green-500 to-blue-500"),
    UserRole(Client, "Client", TopRight, "bg-gradient-to-r from-pink-500 to-red-500")]

  datatype MenuEvent = UserChange(user: UserRole) | LayoutChange(layout: seq<UserRole>)
                     | ToggleVideos(show: bool) | ToggleCamera(enabled: bool) | SignOut

  datatype Found<T> = NotFound | FoundAt(index: nat, value: T)

  /** `userRoles.find(r => r.id === roleId)`. */
  function FindRole(id: RoleId): (r: Found<UserRole>)
    ensures r.FoundAt? ==> r.index < |Roles| && r.value == Roles[r.index] && r.value.id == id &&
                           forall j :: 0 <= j < r.index ==> Roles[j].id != id
    ensures r.NotFound? <==> forall j :: 0 <= j < |Roles| ==> Roles[j].id != id
  {
    if id == DayMaker then FoundAt(0, Roles[0])
    else if id == Family then FoundAt(1, Roles[1])
    else if id == Client then FoundAt(2, Roles[2])
    else NotFound
  }

  /** Only the `me` id has no role. */
  lemma OnlyMeMissing(id: RoleId)
    ensures FindRole(id).NotFound? <==> id == Me
  {
  }

  class Menu {
    var isOpen: bool
    /** The role whose position submenu is showing, if any. */
    var showPositions: Option<RoleId>

    constructor ()
      ensures !isOpen && showPositions == None
    {
      isOpen := false;
      showPositions := None;
    }

    method ToggleMenu()
      modifies this
      ensures isOpen == !old(isOpen)
      ensures showPositions == old(showPositions)
    {
      isOpen := !isOpen;
    }

    /** A click on the backdrop behind the open menu closes it. */
    method BackdropClick()
      modifies this
      ensures !isOpen
      ensures showPositions == old(showPositions)
    {
      isOpen := false;
    }

    /** Clicking a role: closes its open submenu, otherwise opens that role's submenu. */
    method RoleClick(id: RoleId)
      modifies this
      ensures showPositions == if old(showPositions) == Some(id) then None else Some(id)
      ensures isOpen == old(isOpen)
    {
      if showPositions == Some(id) {
        showPositions := None;
      } else {
        showPositions := Some(id);
      }
    }

    /** Choosing a position for a role: the chosen user becomes the current user and
        the whole layout, then the menu closes.  An unknown role does nothing. */
    method SelectRoleWithPosition(id: RoleId, position: VideoPosition) returns (events: seq<MenuEvent>)
      modifies this
      ensures FindRole(id).NotFound? ==>
                events == [] && isOpen == old(isOpen) && showPositions == old(showPositions)
      ensures FindRole(id).FoundAt? ==>
                var u := FindRole(id).value.(position := position);
                u.id == id && u.position == position &&
                events == [UserChange(u), LayoutChange([u])] && !isOpen && showPositions == None
    {
      var role := FindRole(id);
      if role.NotFound? {
        return [];
      }
      var newUser := role.value.(position := position);
      events := [UserChange(newUser), LayoutChange([newUser])];
      showPositions := None;
      isOpen := false;
    }

    /** The video entry shows or hides the video images and closes the menu. */
    method VideoToggleClick(videosVisible: bool) returns (e: MenuEvent)
      modifies this
      ensures e == ToggleVideos(!videosVisible) && !isOpen
      ensures showPositions == old(showPositions)
    {
      e := ToggleVideos(!videosVisible);
      isOpen := false;
    }

    /** The camera entry; the flag defaults to on when the application passes none. */
    method CameraToggleClick(cameraEnabled: bool) returns (e: MenuEvent)
      modifies this
      ensures e == ToggleCamera(!cameraEnabled) && !isOpen
      ensures showPositions == old(showPositions)
    {
      e := ToggleCamera(!cameraEnabled);
      isOpen := false;
    }

    method SignOutClick() returns (e: MenuEvent)
      modifies this
      ensures e == SignOut && !isOpen
      ensures showPositions == old(showPositions)
    {
      e := SignOut;
      isOpen := false;
    }
  }
}
