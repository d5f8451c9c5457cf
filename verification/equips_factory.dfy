/** Turning the instrument endpoints of the settings into VISA addresses
    and the pair of instrument ports a sweep drives. */
module EquipsFactory {
  import opened Text
  import opened Enums
  import opened Models

  const LanPrefix: string := "TCPIP0::"
  const LanSuffix: string := "::INSTR"

  /** `resolve_visa_address`: a LAN endpoint with a non-blank IP address
      becomes a TCP/IP VISA resource for that address; any other endpoint
      uses its VISA address as given. Both are stripped of spaces. */
  function ResolveVisaAddress(ep: InstrumentEndpoint): (address: string)
    ensures ep.connectMode == Lan && Strip(ep.ipAddress) != [] ==>
      address == LanPrefix + Strip(ep.ipAddress) + LanSuffix
    ensures !(ep.connectMode == Lan && Strip(ep.ipAddress) != []) ==> address == Strip(ep.visaAddress)
    ensures address == [] || (!IsSpace(address[0]) && !IsSpace(address[|address| - 1]))
  {
    if ep.connectMode == Lan && Strip(ep.ipAddress) != [] then LanPrefix + Strip(ep.ipAddress) + LanSuffix
    else Strip(ep.visaAddress)
  }

  /** A LAN address can be read back out of its resource string. */
  lemma LanAddressRecoverable(ep: InstrumentEndpoint)
    requires ep.connectMode == Lan && Strip(ep.ipAddress) != []
    ensures var a := ResolveVisaAddress(ep);
      && a[..|LanPrefix|] == LanPrefix && a[|a| - |LanSuffix|..] == LanSuffix
      && a[|LanPrefix|..|a| - |LanSuffix|] == Strip(ep.ipAddress)
  {
    var a := ResolveVisaAddress(ep);
    assert a == LanPrefix + Strip(ep.ipAddress) + LanSuffix;
  }

  /** Resolution is stable: an endpoint that names the resolved address
      directly, outside LAN mode, resolves to the same address. */
  lemma ResolveIdempotent(ep: InstrumentEndpoint)
    ensures var a := ResolveVisaAddress(ep);
      ResolveVisaAddress(ep.(connectMode := Auto, visaAddress := a)) == a
  {
    StripOfStripped(ResolveVisaAddress(ep));
  }

  /** An instrument port: the driver model and the address it opens. */
  datatype Port = Port(model: string, visaAddress: string)

  datatype InstrumentPorts = InstrumentPorts(awg: Port, osc: Port, awgAddress: string, oscAddress: string)

  /** Whether an endpoint is reached over LAN through its IP address. */
  predicate ByIp(ep: InstrumentEndpoint)
  {
    ep.connectMode == Lan && Strip(ep.ipAddress) != []
  }

  /** `create_instrument_ports`: each port drives its endpoint's model at
      the address reported beside it; that address is the LAN resource of
      the IP when the endpoint is reached by IP, and its stripped VISA
      address otherwise. */
  function CreateInstrumentPorts(setup: InstrumentSetup): (ports: InstrumentPorts)
    ensures ports.awg.model == setup.awg.model && ports.osc.model == setup.osc.model
    ensures ports.awg.visaAddress == ports.awgAddress && ports.osc.visaAddress == ports.oscAddress
    ensures ByIp(setup.awg) ==> ports.awgAddress == LanPrefix + Strip(setup.awg.ipAddress) + LanSuffix
    ensures !ByIp(setup.awg) ==> ports.awgAddress == Strip(setup.awg.visaAddress)
    ensures ByIp(setup.osc) ==> ports.oscAddress == LanPrefix + Strip(setup.osc.ipAddress) + LanSuffix
    ensures !ByIp(setup.osc) ==> ports.oscAddress == Strip(setup.osc.visaAddress)
  {
    var awgAddress := ResolveVisaAddress(setup.awg);
    var oscAddress := ResolveVisaAddress(setup.osc);
    InstrumentPorts(Port(setup.awg.model, awgAddress), Port(setup.osc.model, oscAddress), awgAddress, oscAddress)
  }

  /** Each port depends on its own endpoint only: changing the
      oscilloscope's endpoint leaves the generator's port as it was, and
      the other way round. */
  lemma PortsIndependent(setup: InstrumentSetup, awg: InstrumentEndpoint, osc: InstrumentEndpoint)
    ensures CreateInstrumentPorts(setup.(osc := osc)).awg == CreateInstrumentPorts(setup).awg
    ensures CreateInstrumentPorts(setup.(awg := awg)).osc == CreateInstrumentPorts(setup).osc
  {
  }
}
