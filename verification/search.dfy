/**
 * The wallet analyzer page: the address validator, the search / clear /
 * connect / disconnect handlers over the record
 * {address, error, showAnalysis, searchedAddress}, the active address and
 * the condition under which the analysis view is shown, and the shortened
 * address shown in the header and the search banner.
 *
 * The wallet connection itself belongs to a foreign library: whether a wallet
 * is connected, its address ("" when there is none) and whether a connection
 * attempt threw are inputs.
 */
module Search {
  import opened WalletTypes

  const EmptyAddressError := "Please enter a wallet address"
  const InvalidAddressError := "Please enter a valid Ethereum wallet address"
  const ConnectFailedError := "Failed to connect wallet"

  /** A character of the class [a-fA-F0-9]. */
  predicate IsHexDigit(c: char)
  {
    ('0' <= c <= '9') || ('a' <= c <= 'f') || ('A' <= c <= 'F')
  }

  /** The anchored pattern ^0x[a-fA-F0-9]{40}$ (lower-case x only). */
  function IsEthereumAddress(s: string): (ok: bool)
    ensures ok ==> |s| == 42 && s[..2] == "0x"
    ensures ok ==> forall i :: 2 <= i < |s| ==> s[i] in HexDigits
  {
    |s| == 42 && s[0] == '0' && s[1] == 'x' && forall i :: 2 <= i < 42 ==> IsHexDigit(s[i])
  }

  /** The 22 characters the pattern accepts after the prefix. */
  const HexDigits: set<char> := {
    '0', '1', '2', '3', '4', '5', '6', '7', '8', '9',
    'a', 'b', 'c', 'd', 'e', 'f', 'A', 'B', 'C', 'D', 'E', 'F'
  }

  /**
   * Reference reading of the pattern: the prefix "0x" followed by exactly
   * forty characters drawn from the hexadecimal digits of either case.
   */
  lemma AddressPatternShape(s: string)
    ensures IsEthereumAddress(s) <==>
      exists digits: string :: s == "0x" + digits && |digits| == 40 && forall c :: c in digits ==> c in HexDigits
  {
    if IsEthereumAddress(s) {
      var digits := s[2..];
      assert s == "0x" + digits;
      forall c | c in digits ensures c in HexDigits {
        var k :| 0 <= k < |digits| && digits[k] == c;
        assert IsHexDigit(s[k + 2]);
      }
    }
    if exists digits: string :: s == "0x" + digits && |digits| == 40 && forall c :: c in digits ==> c in HexDigits {
      var digits: string :| s == "0x" + digits && |digits| == 40 && forall c :: c in digits ==> c in HexDigits;
      forall i | 2 <= i < 42 ensures IsHexDigit(s[i]) {
        assert s[i] == digits[i - 2];
        assert digits[i - 2] in HexDigits;
      }
    }
  }

  /** The page's own state cells. */
  datatype SearchState = SearchState(
    address: string,            // the text in the input field
    error: Option<string>,
    showAnalysis: bool,
    searchedAddress: string)

  const InitialSearch := SearchState("", None, false, "")

  /** A searched address is either none at all or a well-formed address. */
  predicate SearchedWellFormed(s: SearchState)
  {
    s.searchedAddress == "" || IsEthereumAddress(s.searchedAddress)
  }

  /** Typing in the input field. */
  function EditAddress(s: SearchState, text: string): (t: SearchState)
    ensures t.address == text
    ensures t.error == s.error && t.showAnalysis == s.showAnalysis && t.searchedAddress == s.searchedAddress
  {
    s.(address := text)
  }

  /**
   * The search handler: an empty input or one that does not match the
   * pattern only sets the error; a valid one clears the error, becomes the
   * searched address and turns the analysis on.
   */
  function SearchWallet(s: SearchState): (t: SearchState)
    ensures t.address == s.address
    ensures t.error.None? <==> IsEthereumAddress(s.address)
    ensures t.error.Some? ==>
      t.error.value == (if s.address == "" then EmptyAddressError else InvalidAddressError)
    ensures t.searchedAddress == (if IsEthereumAddress(s.address) then s.address else s.searchedAddress)
    ensures t.showAnalysis == (IsEthereumAddress(s.address) || s.showAnalysis)
    ensures SearchedWellFormed(s) ==> SearchedWellFormed(t)
  {
    if s.address == "" then s.(error := Some(EmptyAddressError))
    else if !IsEthereumAddress(s.address) then s.(error := Some(InvalidAddressError))
    else s.(error := None, searchedAddress := s.address, showAnalysis := true)
  }

  /** The Clear button of the search banner: back to an empty search, error kept. */
  function ClearSearch(s: SearchState): (t: SearchState)
    ensures t == InitialSearch.(error := s.error)
  {
    s.(searchedAddress := "", showAnalysis := false, address := "")
  }

  /** The disconnect handler: the analysis is turned off, nothing else changes. */
  function DisconnectWallet(s: SearchState): (t: SearchState)
    ensures !t.showAnalysis
    ensures t.address == s.address && t.error == s.error && t.searchedAddress == s.searchedAddress
  {
    s.(showAnalysis := false)
  }

  /**
   * How the awaited call to the connection library ended: it returned, or it
   * threw. Whether a wallet actually got connected is not part of this.
   */
  datatype ConnectOutcome =
    | ConnectReturned
    | ConnectThrewError(message: string)   // an Error with this message
    | ConnectThrewOther                    // something that is not an Error

  /**
   * The connect handler: the error is cleared first; when the call returns
   * without throwing the searched address is cleared, when it throws the
   * error is set.
   */
  function ConnectWallet(s: SearchState, outcome: ConnectOutcome): (t: SearchState)
    ensures t.address == s.address && t.showAnalysis == s.showAnalysis
    ensures t.searchedAddress == (if outcome.ConnectReturned? then "" else s.searchedAddress)
    ensures t.error.None? <==> outcome.ConnectReturned?
    ensures outcome.ConnectThrewError? ==> t.error == Some(outcome.message)
    ensures outcome.ConnectThrewOther? ==> t.error == Some(ConnectFailedError)
  {
    var cleared := s.(error := None);
    match outcome
    case ConnectReturned => cleared.(searchedAddress := "")
    case ConnectThrewError(message) => cleared.(error := Some(message))
    case ConnectThrewOther => cleared.(error := Some(ConnectFailedError))
  }

  /** The address analysed: the connected one when there is one, else the searched one. */
  function ActiveWalletAddress(connectedAddress: string, searchedAddress: string): (active: string)
    ensures connectedAddress != "" ==> active == connectedAddress
    ensures connectedAddress == "" ==> active == searchedAddress
    ensures active == "" <==> connectedAddress == "" && searchedAddress == ""
  {
    if connectedAddress != "" then connectedAddress else searchedAddress
  }

  /**
   * Whether the page shows the analysis view (rather than the welcome screen):
   * a wallet is connected or a search succeeded, and there is an active address.
   */
  function ShowsAnalysis(isConnected: bool, connectedAddress: string, s: SearchState): (shown: bool)
    ensures shown ==> isConnected || s.showAnalysis
    ensures connectedAddress == "" ==> (shown <==> (isConnected || s.showAnalysis) && s.searchedAddress != "")
    ensures connectedAddress != "" ==> (shown <==> isConnected || s.showAnalysis)
    ensures shown && SearchedWellFormed(s) ==>
      var active := ActiveWalletAddress(connectedAddress, s.searchedAddress);
      active == connectedAddress || IsEthereumAddress(active)
  {
    (isConnected || s.showAnalysis) && ActiveWalletAddress(connectedAddress, s.searchedAddress) != ""
  }

  /** `s.slice(0, n)`: the first n characters, or all of them when there are fewer. */
  function SliceHead(s: string, n: nat): string
  {
    if |s| <= n then s else s[..n]
  }

  /** `s.slice(-n)`: the last n characters, or all of them when there are fewer. */
  function SliceTail(s: string, n: nat): string
  {
    if |s| <= n then s else s[|s| - n..]
  }

  function Min(a: nat, b: nat): nat { if a <= b then a else b }

  /** The shortened address: its first 6 characters, "...", its last 4 characters. */
  function Abbreviate(s: string): (short: string)
    ensures |short| == Min(|s|, 6) + 3 + Min(|s|, 4)
    ensures short[..Min(|s|, 6)] == s[..Min(|s|, 6)]
    ensures short[Min(|s|, 6)..Min(|s|, 6) + 3] == "..."
    ensures short[Min(|s|, 6) + 3..] == s[|s| - Min(|s|, 4)..]
    ensures IsEthereumAddress(s) ==> |short| == 13 && short[..2] == "0x"
  {
    SliceHead(s, 6) + "..." + SliceTail(s, 4)
  }

  /** The page's state cells, updated in place by its handlers. */
  class WalletAnalyzer {
    var address: string
    var error: Option<string>
    var showAnalysis: bool
    var searchedAddress: string

    function State(): SearchState
      reads this
    {
      SearchState(address, error, showAnalysis, searchedAddress)
    }

    ghost predicate Valid()
      reads this
    {
      SearchedWellFormed(State())
    }

    constructor ()
      ensures Valid() && State() == InitialSearch
    {
      address := "";
      error := None;
      showAnalysis := false;
      searchedAddress := "";
    }

    method SetAddress(text: string)
      requires Valid()
      modifies this
      ensures Valid() && State() == EditAddress(old(State()), text)
    {
      address := text;
    }

    method HandleSearchWallet()
      requires Valid()
      modifies this
      ensures Valid() && State() == SearchWallet(old(State()))
    {
      if address == "" {
        error := Some(EmptyAddressError);
        return;
      }
      if !IsEthereumAddress(address) {
        error := Some(InvalidAddressError);
        return;
      }
      error := None;
      searchedAddress := address;
      showAnalysis := true;
    }

    method HandleClear()
      requires Valid()
      modifies this
      ensures Valid() && State() == ClearSearch(old(State()))
    {
      searchedAddress := "";
      showAnalysis := false;
      address := "";
    }

    method HandleDisconnectWallet()
      requires Valid()
      modifies this
      ensures Valid() && State() == DisconnectWallet(old(State()))
    {
      showAnalysis := false;
    }

    method HandleConnectWallet(outcome: ConnectOutcome)
      requires Valid()
      modifies this
      ensures Valid() && State() == ConnectWallet(old(State()), outcome)
    {
      error := None;
      match outcome {
        case ConnectReturned =>
          searchedAddress := "";
        case ConnectThrewError(message) =>
          error := Some(message);
        case ConnectThrewOther =>
          error := Some(ConnectFailedError);
      }
    }
  }
}
