/** The avatar initials of the profile page. */
module Initials {
  import opened Wrappers
  import opened Text
  import opened Catalog

  /** `getInitials(username, firstName, lastName)`: first and last initials,
      else the first name's initial, else the first two letters of the
      username, else its first letter, else `U`. */
  function GetInitials(username: Option<string>, firstName: Option<string>, lastName: Option<string>): string {
    if Truthy(firstName) && Truthy(lastName) then Upper([firstName.value[0], lastName.value[0]])
    else if Truthy(firstName) then Upper([firstName.value[0]])
    else if username.Some? && |username.value| >= 2 then Upper(username.value[..2])
    else if Truthy(username) then Upper([username.value[0]])
    else "U"
  }

  lemma UpperIdempotent(s: string)
    ensures Upper(Upper(s)) == Upper(s)
  {
  }

  /** The initials are one or two upper-cased letters taken, in priority
      order, from the full name, the first name or the username; `U` is
      left only for a user with neither a first name nor a username. */
  lemma InitialsFollowPriority(username: Option<string>, firstName: Option<string>, lastName: Option<string>)
    ensures var r := GetInitials(username, firstName, lastName);
            (|r| == 1 || |r| == 2)
            && Upper(r) == r
            && (Truthy(firstName) && Truthy(lastName) ==>
                  r == [UpperChar(firstName.value[0]), UpperChar(lastName.value[0])])
            && (Truthy(firstName) && !Truthy(lastName) ==> r == [UpperChar(firstName.value[0])])
            && (!Truthy(firstName) && Truthy(username) ==> r == Upper(username.value[..if |username.value| >= 2 then 2 else 1]))
            && (!Truthy(firstName) && !Truthy(username) ==> r == "U")
  {
    var r := GetInitials(username, firstName, lastName);
    UpperIdempotent(r);
    if !Truthy(firstName) && !Truthy(username) {
      assert r == "U";
      assert Upper("U") == "U" by {
        assert UpperChar('U') == 'U';
      }
    } else if !Truthy(firstName) && Truthy(username) && |username.value| == 1 {
      assert username.value[..1] == [username.value[0]];
    }
  }
}
