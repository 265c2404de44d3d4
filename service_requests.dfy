/** Client registration and service requests: a client asks for technical
    advice, a veterinary consultation or product availability, and the first
    two draw on limited counters of advisories and appointments.

    Every prompt of the source repeats until its entry is valid; here one call
    is one entry, a rejected entry changes nothing and yields the message the
    source prints, and repeating is left to the caller. */
module ServiceRequests {
  import opened Wrappers
  import opened Strings

  const InitialAppointments: int := 20
  const InitialAdvisories: int := 20

  const TechnicalAdvice: string := "Asesoría técnica"
  const VetConsultation: string := "Consulta veterinaria"
  const ProductAvailability: string := "Disponibilidad del producto"

  /** The menu of needs. */
  const Needs: map<string, string> :=
    map["1" := TechnicalAdvice, "2" := VetConsultation, "3" := ProductAvailability]

  datatype Client = Client(name: string, id: string, address: string, phone: string)

  datatype ServiceRequest = ServiceRequest(client: Client, need: string, quantity: int)

  const NumberError: string := "Error: Debe ingresar solo números y que tenga 10 dígitos."

  /** The identity-card and phone validator: exactly ten digits. */
  function ReadNumber(entry: string): (r: Result<string>)
    ensures r.Ok? <==> |entry| == 10 && forall i :: 0 <= i < 10 ==> '0' <= entry[i] <= '9'
    ensures r.Ok? ==> r.value == entry
    ensures r.Err? ==> r.message == NumberError
  {
    if IsDigitString(entry) && |entry| == 10 then Ok(entry) else Err(NumberError)
  }

  /** `seleccionar_necesidad`: the stripped option must be one of the menu keys. */
  function SelectNeed(option: string): (r: Result<string>)
    ensures r.Ok? <==> Strip(option) in ["1", "2", "3"]
    ensures r.Ok? ==> r.value in [TechnicalAdvice, VetConsultation, ProductAvailability]
    ensures Strip(option) == "1" ==> r == Ok(TechnicalAdvice)
    ensures Strip(option) == "2" ==> r == Ok(VetConsultation)
    ensures Strip(option) == "3" ==> r == Ok(ProductAvailability)
    ensures r.Err? ==> r.message == "Error: Ingrese un número válido."
  {
    var key := Strip(option);
    if key in Needs then Ok(Needs[key]) else Err("Error: Ingrese un número válido.")
  }

  /** The entries `registrar_cliente` accepts: name and address not empty
      once stripped, identity card and phone of ten digits. */
  predicate ClientAccepted(name: string, id: string, address: string, phone: string) {
    Strip(name) != "" && ReadNumber(id).Ok? && Strip(address) != "" && ReadNumber(phone).Ok?
  }

  /** The quantity entries `ingresar_cantidad` accepts for a need, given the
      counters left: positive digits, within the counter the need draws on. */
  predicate QuantityAccepted(need: string, entry: string, advisoriesLeft: int, appointmentsLeft: int) {
    && IsDigitString(Strip(entry)) && DigitsValue(Strip(entry)) > 0
    && (need == TechnicalAdvice ==> DigitsValue(Strip(entry)) <= advisoriesLeft)
    && (need == VetConsultation ==> DigitsValue(Strip(entry)) <= appointmentsLeft)
  }

  class ServiceDesk {
    var clients: seq<Client>
    var requests: seq<ServiceRequest>
    var appointments: int
    var advisories: int

    /** The counters only ever drop from 20 and never go below 0. */
    ghost predicate Valid()
      reads this
    {
      0 <= appointments <= InitialAppointments && 0 <= advisories <= InitialAdvisories
    }

    constructor ()
      ensures clients == [] && requests == []
      ensures appointments == 20 && advisories == 20
      ensures Valid()
    {
      clients, requests := [], [];
      appointments, advisories := InitialAppointments, InitialAdvisories;
    }

    /** `registrar_cliente`: name and address are stripped and must not be
        empty, identity card and phone must be ten digits; the entries are
        checked in the order they are asked for. */
    method RegisterClient(name: string, id: string, address: string, phone: string) returns (r: Result<Client>)
      modifies this`clients
      ensures r.Ok? <==> ClientAccepted(name, id, address, phone)
      ensures Strip(name) == "" ==> r == Err("Error: El nombre no puede estar vacío.")
      ensures Strip(name) != "" && ReadNumber(id).Err? ==> r == Err(NumberError)
      ensures Strip(name) != "" && ReadNumber(id).Ok? && Strip(address) == "" ==>
        r == Err("Error: La dirección no puede estar vacía.")
      ensures r.Ok? ==> r.value == Client(Strip(name), id, Strip(address), phone)
      ensures r.Ok? ==> clients == old(clients) + [r.value]
      ensures r.Err? ==> clients == old(clients)
    {
      var n := Strip(name);
      if n == "" {
        return Err("Error: El nombre no puede estar vacío.");
      }
      var card := ReadNumber(id);
      if card.Err? {
        return Err(card.message);
      }
      var a := Strip(address);
      if a == "" {
        return Err("Error: La dirección no puede estar vacía.");
      }
      var tel := ReadNumber(phone);
      if tel.Err? {
        return Err(tel.message);
      }
      var c := Client(n, card.value, a, tel.value);
      clients := clients + [c];
      return Ok(c);
    }

    /** `ingresar_cantidad`: the stripped entry must be digits and positive;
        an advisory or a consultation must fit in what is left of its counter,
        which then drops by exactly that amount; a product-availability need
        touches no counter. A rejected entry changes no counter. */
    method EnterQuantity(need: string, entry: string) returns (r: Result<int>)
      requires Valid()
      modifies this`appointments, this`advisories
      ensures Valid()
      ensures r.Ok? <==> QuantityAccepted(need, entry, old(advisories), old(appointments))
      ensures r.Ok? ==> r.value == DigitsValue(Strip(entry)) && r.value > 0
      ensures r.Ok? ==> advisories == old(advisories) - (if need == TechnicalAdvice then r.value else 0)
      ensures r.Ok? ==> appointments == old(appointments) - (if need == VetConsultation then r.value else 0)
      ensures r.Err? ==> advisories == old(advisories) && appointments == old(appointments)
      ensures !IsDigitString(Strip(entry)) ==> r == Err("Error: Ingrese solo números.")
    {
      var text := Strip(entry);
      if !IsDigitString(text) {
        return Err("Error: Ingrese solo números.");
      }
      var amount := DigitsValue(text);
      if amount <= 0 {
        return Err("Error: La cantidad debe ser mayor que cero.");
      }
      if need == TechnicalAdvice {
        if amount > advisories {
          return Err("Error: No hay suficientes asesorías disponibles. Solo quedan " + IntToString(advisories) + ".");
        }
        advisories := advisories - amount;
      } else if need == VetConsultation {
        if amount > appointments {
          return Err("Error: No hay suficientes citas disponibles. Solo quedan " + IntToString(appointments) + ".");
        }
        appointments := appointments - amount;
      }
      return Ok(amount);
    }

    /** Records the request of a registered client. */
    method AddRequest(client: Client, need: string, quantity: int) returns (req: ServiceRequest)
      modifies this`requests
      ensures req == ServiceRequest(client, need, quantity)
      ensures requests == old(requests) + [req]
    {
      req := ServiceRequest(client, need, quantity);
      requests := requests + [req];
    }

    /** The second half of `crear_solicitud`, once the client is registered:
        selects the need, takes the quantity and records the request with
        exactly that need and quantity. A rejected entry records nothing and
        changes no counter. */
    method RequestFor(client: Client, option: string, quantity: string) returns (r: Result<ServiceRequest>)
      requires Valid()
      modifies this`requests, this`appointments, this`advisories
      ensures Valid()
      ensures r.Ok? <==> (SelectNeed(option).Ok? &&
                          QuantityAccepted(SelectNeed(option).value, quantity, old(advisories), old(appointments)))
      ensures SelectNeed(option).Err? ==> r == Err(SelectNeed(option).message)
      ensures r.Ok? ==> r.value == ServiceRequest(client, SelectNeed(option).value, DigitsValue(Strip(quantity)))
      ensures r.Ok? ==> requests == old(requests) + [r.value]
      ensures r.Ok? ==> advisories == old(advisories) - (if r.value.need == TechnicalAdvice then r.value.quantity else 0)
      ensures r.Ok? ==> appointments == old(appointments) - (if r.value.need == VetConsultation then r.value.quantity else 0)
      ensures r.Err? ==> requests == old(requests)
      ensures r.Err? ==> advisories == old(advisories) && appointments == old(appointments)
    {
      var need := SelectNeed(option);
      if need.Err? {
        return Err(need.message);
      }
      var amount := EnterQuantity(need.value, quantity);
      if amount.Err? {
        return Err(amount.message);
      }
      var req := AddRequest(client, need.value, amount.value);
      return Ok(req);
    }

    /** `crear_solicitud`: registers the client, then takes the need and the
        quantity and records the request. The client is registered exactly
        when its entries are accepted, and stays registered when a later entry
        is rejected; the request holds the stripped client, the selected need
        and the quantity entered. */
    method CreateRequest(name: string, id: string, address: string, phone: string,
                         option: string, quantity: string) returns (r: Result<ServiceRequest>)
      requires Valid()
      modifies this
      ensures Valid()
      ensures clients == old(clients) +
        (if ClientAccepted(name, id, address, phone) then [Client(Strip(name), id, Strip(address), phone)] else [])
      ensures r.Ok? <==> (ClientAccepted(name, id, address, phone) && SelectNeed(option).Ok? &&
                          QuantityAccepted(SelectNeed(option).value, quantity, old(advisories), old(appointments)))
      ensures r.Ok? ==> r.value == ServiceRequest(Client(Strip(name), id, Strip(address), phone),
                                                  SelectNeed(option).value, DigitsValue(Strip(quantity)))
      ensures r.Ok? ==> requests == old(requests) + [r.value]
      ensures r.Ok? ==> advisories == old(advisories) - (if r.value.need == TechnicalAdvice then r.value.quantity else 0)
      ensures r.Ok? ==> appointments == old(appointments) - (if r.value.need == VetConsultation then r.value.quantity else 0)
      ensures r.Err? ==> requests == old(requests)
      ensures r.Err? ==> advisories == old(advisories) && appointments == old(appointments)
    {
      var client := RegisterClient(name, id, address, phone);
      if client.Err? {
        return Err(client.message);
      }
      r := RequestFor(client.value, option, quantity);
    }
  }
}
