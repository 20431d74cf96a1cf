/** `src/components/ConnectWallet.tsx`: the wallet button, its abbreviated
    address and the copy-address feedback. */
module ConnectWallet {
  import opened Common

  function Min(a: int, b: int): int { if a <= b then a else b }
  function Max(a: int, b: int): int { if a >= b then a else b }

  /** `addr.slice(0, 6) + "..." + addr.slice(-4)`: the first six and the
      last four characters; a short address shows whole on each side. */
  function FormatAddress(address: string): (shown: string)
    ensures |shown| == Min(6, |address|) + 3 + Min(4, |address|)
    ensures shown[..Min(6, |address|)] == address[..Min(6, |address|)]
    ensures shown[Min(6, |address|)..Min(6, |address|) + 3] == "..."
    ensures shown[|shown| - Min(4, |address|)..] == address[|address| - Min(4, |address|)..]
  {
    var head, tail := address[..Min(6, |address|)], address[Max(|address| - 4, 0)..];
    assert (head + "..." + tail)[..|head|] == head;
    assert (head + "..." + tail)[|head|..|head| + 3] == "...";
    assert (head + "..." + tail)[|head| + 3..] == tail;
    head + "..." + tail
  }

  /** A full 20-byte hex address, `0x` and 40 digits, becomes 13 characters
      that keep the `0x` prefix. */
  lemma FormatFullAddress(address: string)
    requires |address| == 42
    ensures |FormatAddress(address)| == 13
    ensures FormatAddress(address)[..2] == address[..2]
  {
    var shown := FormatAddress(address);
    assert shown[..2] == shown[..6][..2];
    assert address[..2] == address[..6][..2];
  }

  /** Two addresses of ten or more characters with the same shown agree on
      their first six and last four characters. */
  lemma FormatAddressKeepsEnds(a: string, b: string)
    requires |a| >= 10 && |b| >= 10 && FormatAddress(a) == FormatAddress(b)
    ensures a[..6] == b[..6] && a[|a| - 4..] == b[|b| - 4..]
  {
    var shown := FormatAddress(a);
    assert a[..6] == shown[..6] == b[..6];
    assert a[|a| - 4..] == shown[|shown| - 4..] == b[|b| - 4..];
  }

  /** What the component renders. */
  datatype View =
    | AccountView(addressLabel: Option<string>, copiedIcon: bool)
    | ConnectView(disabled: bool, caption: string, error: Option<string>)

  /** The component's state: the wallet context it reads and its own
      `copied` flag. An absent address is the empty string. */
  class ConnectWalletButton {
    var address: string
    var isConnected: bool
    var isLoading: bool
    var error: string
    var copied: bool

    constructor (address: string, isConnected: bool, isLoading: bool, error: string)
      ensures this.address == address && this.isConnected == isConnected
      ensures this.isLoading == isLoading && this.error == error && !copied
    {
      this.address, this.isConnected, this.isLoading, this.error := address, isConnected, isLoading, error;
      copied := false;
    }

    /** The account branch (address and Disconnect) is taken exactly when
        connected with an address; otherwise the Connect button shows,
        disabled exactly while connecting. */
    function Render(showAddress: bool): (view: View)
      reads this
      ensures view.AccountView? <==> isConnected && address != []
      ensures view.AccountView? ==>
                (view.addressLabel.Some? <==> showAddress)
                && (showAddress ==> view.addressLabel.value == FormatAddress(address))
                && (view.copiedIcon <==> copied)
      ensures view.ConnectView? ==>
                (view.disabled <==> isLoading)
                && view.caption == (if isLoading then "Connecting..." else "Connect Wallet")
                && (view.error.Some? <==> error != [])
    {
      if isConnected && address != [] then
        AccountView(if showAddress then Some(FormatAddress(address)) else None, copied)
      else
        ConnectView(isLoading, if isLoading then "Connecting..." else "Connect Wallet",
                    if error != [] then Some(error) else None)
    }

    /** `handleCopyAddress`: without an address nothing happens; otherwise
        `copied` turns on once the clipboard write succeeds. */
    method HandleCopyAddress(clipboardWriteSucceeds: bool)
      modifies this`copied
      ensures copied == (old(copied) || (address != [] && clipboardWriteSucceeds))
    {
      if address != [] {
        if clipboardWriteSucceeds {
          copied := true;
        }
      }
    }

    /** The timer set by a successful copy: `copied` turns off again. */
    method CopyTimerElapsed()
      modifies this`copied
      ensures !copied
    {
      copied := false;
    }
  }
}
