/** The stubbed directory of the chatbot: doctors per department, free time
    slots per doctor, and the registered-client check. */
module Directory {

  /** Doctors of a department: the three orthopaedists for "Ortho", two
      general doctors for every other department name. */
  function GetDoctorsByDepartment(department: string): (doctors: seq<string>)
    ensures department == "Ortho" ==> doctors == ["Dr. Jagadeesh MS", "Dr. Ravikiran MS", "Dr. Haitham MS"]
    ensures department != "Ortho" ==> doctors == ["Dr. Smith", "Dr. Jones"]
    ensures |doctors| >= 2
    ensures forall k :: 0 <= k < |doctors| ==> doctors[k] != []
  {
    if department == "Ortho" then ["Dr. Jagadeesh MS", "Dr. Ravikiran MS", "Dr. Haitham MS"]
    else ["Dr. Smith", "Dr. Jones"]
  }

  /** The four hourly morning slots; the doctor is not consulted. */
  function GetAvailableTimesForDoctor(doctor: string): (times: seq<string>)
    ensures times == ["09:00", "10:00", "11:00", "12:00"]
    ensures |times| == 4
    ensures forall k :: 0 <= k < |times| ==> |times[k]| == 5 && times[k][2] == ':'
  {
    ["09:00", "10:00", "11:00", "12:00"]
  }

  /** A client is registered exactly when the address is the one known address. */
  function ClientExists(email: string): (known: bool)
    ensures known ==> email == "existing@example.com"
    ensures email == "existing@example.com" ==> known
  {
    email == "existing@example.com"
  }
}
