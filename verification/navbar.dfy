/**
 * The navigation bar: the avatar initials, which role-specific links are
 * shown, and the mobile menu flag.
 */
module Navbar {
  import opened Api
  import opened Auth
  import opened Text

  /** `n => n[0]` over the pieces, then `join('')`: an empty piece gives `undefined`, which joins as nothing. */
  function FirstChars(pieces: seq<string>): string {
    if pieces == [] then ""
    else (if pieces[0] == "" then "" else [pieces[0][0]]) + FirstChars(pieces[1..])
  }

  function CountNonEmpty(pieces: seq<string>): nat {
    if pieces == [] then 0 else (if pieces[0] == "" then 0 else 1) + CountNonEmpty(pieces[1..])
  }

  /** `getInitials`: a missing or empty name gives the empty string. */
  function GetInitials(name: Option<string>): (r: string)
    ensures name.None? || name.value == "" ==> r == ""
  {
    if name.None? || name.value == "" then ""
    else ToUpper(FirstChars(Split(name.value, ' ')))
  }

  /**
   * Reference definition of the initials: the characters that start a word,
   * i.e. are not a space and follow the start of the name or a space.
   */
  function WordStarts(s: string, afterSpace: bool): string {
    if s == [] then ""
    else if s[0] == ' ' then WordStarts(s[1..], true)
    else (if afterSpace then [s[0]] else "") + WordStarts(s[1..], false)
  }

  lemma {:induction false} FirstCharsSplit(s: string)
    ensures FirstChars(Split(s, ' ')) == WordStarts(s, true)
    ensures FirstChars(Split(s, ' ')[1..]) == WordStarts(s, false)
    decreases |s|
  {
    if s != [] {
      FirstCharsSplit(s[1..]);
      var rest := Split(s[1..], ' ');
      if s[0] == ' ' {
        assert Split(s, ' ') == [""] + rest;
        assert Split(s, ' ')[1..] == rest;
      } else {
        var parts := Split(s, ' ');
        assert parts == [[s[0]] + rest[0]] + rest[1..];
        assert parts[1..] == rest[1..];
        assert FirstChars(parts) == [s[0]] + FirstChars(rest[1..]);
      }
    }
  }

  /** The initials are the upper-cased first letters of the words, however the spaces are laid out. */
  lemma InitialsAreWordStarts(name: string)
    ensures GetInitials(Some(name)) == ToUpper(WordStarts(name, true))
  {
    FirstCharsSplit(name);
  }

  lemma {:induction false} FirstCharsLength(pieces: seq<string>)
    ensures |FirstChars(pieces)| == CountNonEmpty(pieces)
  {
    if pieces != [] {
      FirstCharsLength(pieces[1..]);
    }
  }

  /** One initial per non-empty piece: leading, trailing and doubled spaces contribute nothing. */
  lemma InitialsLength(name: string)
    ensures |GetInitials(Some(name))| == CountNonEmpty(Split(name, ' '))
  {
    FirstCharsLength(Split(name, ' '));
  }

  /** A name with no space gives exactly its first character, upper-cased. */
  lemma InitialsOfOneWord(name: string)
    requires name != "" && ' ' !in name
    ensures GetInitials(Some(name)) == [UpperChar(name[0])]
  {
    SplitWithoutSep(name, ' ');
    assert FirstChars([name]) == [name[0]] + FirstChars([]);
  }

  /** The 'Report Issue' link: logged-in users who are not admins. */
  predicate ShowsReportIssue(userInfo: Option<UserInfo>) {
    userInfo.Some? && !userInfo.value.isAdmin
  }

  /** The 'Admin Dashboard' link: logged-in admins. */
  predicate ShowsAdminDashboard(userInfo: Option<UserInfo>) {
    userInfo.Some? && userInfo.value.isAdmin
  }

  /** No user sees both role links; anonymous visitors see neither; every logged-in user sees one. */
  lemma RoleLinksExclusive(userInfo: Option<UserInfo>)
    ensures !(ShowsReportIssue(userInfo) && ShowsAdminDashboard(userInfo))
    ensures userInfo.None? ==> !ShowsReportIssue(userInfo) && !ShowsAdminDashboard(userInfo)
    ensures userInfo.Some? ==> ShowsReportIssue(userInfo) || ShowsAdminDashboard(userInfo)
  {
  }

  /** The bar's own state: whether the mobile menu is open. */
  class NavbarState {
    var isMenuOpen: bool

    constructor ()
      ensures !isMenuOpen
    {
      isMenuOpen := false;
    }

    /** The hamburger button. */
    method ToggleMenu()
      modifies this
      ensures isMenuOpen == !old(isMenuOpen)
    {
      isMenuOpen := !isMenuOpen;
    }

    /** Any link of the mobile menu. */
    method CloseMenu()
      modifies this
      ensures !isMenuOpen
    {
      isMenuOpen := false;
    }

    /** `handleLogout`: ends the session, closes the menu, and sends the user to the login page. */
    method HandleLogout(auth: AuthProvider) returns (navigateTo: string)
      modifies this, auth, auth.storage
      ensures auth.userInfo == None && auth.storage.entry == None
      ensures !isMenuOpen
      ensures navigateTo == "/login"
    {
      auth.Logout();
      isMenuOpen := false;
      navigateTo := "/login";
    }
  }
}
