/** The address `ConnectToServer` connects to. Parsing a literal IP address and decoding a
    shareable server code belong to other libraries; they are parameters here:
    `tryParse(s)` is `Some(f)` when `s` parses as an IP address whose textual form is `f`,
    and `decode(s)` is the address a server code stands for. */
module Address {
  import opened Transport

  /** The `ipString` that `ConnectToServer` computes: the code itself when it is a literal
      address, otherwise the decoder's answer. */
  function IpString(code: string, tryParse: string -> Option<string>, decode: string -> string): (r: string)
    ensures tryParse(code).Some? ==> r == code
    ensures tryParse(code).None? ==> r == decode(code)
  {
    if tryParse(code).Some? then code else decode(code)
  }

  /** The host address passed to `Client.Connect`: the parsed address's text followed by
      ":7777", and just ":7777" when the code is not a literal address (the parse's output
      is then null, which formats as the empty string). */
  function ConnectAddress(code: string, tryParse: string -> Option<string>): (r: string)
    ensures tryParse(code).Some? ==> r == tryParse(code).value + ":7777"
    ensures tryParse(code).None? ==> r == ":7777"
  {
    (match tryParse(code) case Some(address) => address case None => "") + ":7777"
  }

  /** The decoded address never reaches the transport: every code that is not a literal
      address leads to the same connect target, whatever the decoder makes of it. */
  lemma CodesShareTarget(a: string, b: string, tryParse: string -> Option<string>)
    requires tryParse(a).None? && tryParse(b).None?
    ensures ConnectAddress(a, tryParse) == ConnectAddress(b, tryParse)
  {
  }
}
