/** The seed data the application starts from when nothing is stored. */
module Fixtures {
  import opened Types

  const MockStations: seq<Station> := [
    Station("s1", "ElectraHub Downtown", 37.7749, -122.4194, Hyper, Available, 1850,
            "1.2 km", "455 Market St, Mumbai", Some(["09:00", "11:30", "14:00", "16:30"])),
    Station("s2", "GreenDrive Plaza", 37.7833, -122.4167, Fast, Occupied, 1225,
            "2.5 km", "101 Post St, Mumbai", Some(["10:00", "12:00", "15:00"])),
    Station("s3", "VoltPark North", 37.7950, -122.4000, Standard, Available, 850,
            "4.8 km", "888 Marine Drive, Mumbai", Some(["08:00", "13:00", "17:00"])),
    Station("m1", "EV Specialist Workshop", 37.7800, -122.4100, Mechanic, Available, 149900,
            "3.1 km", "Sector 4, Navi Mumbai", Some(["09:00", "14:00"])),
    Station("m2", "QuickFix EV Care", 37.7700, -122.4250, Mechanic, Available, 99900,
            "0.8 km", "Station Road, Mumbai", Some(["11:00", "16:00"]))
  ]

  const MechanicServices: seq<MechanicService> := [
    MechanicService("m1", "Battery Diagnostic",
      "Full health check and optimization of EV battery cells.", 149900, "Battery"),
    MechanicService("m2", "Brake Service",
      "Regenerative braking system calibration and pad check.", 299900, "Disc"),
    MechanicService("m3", "Software Update",
      "Latest firmware optimization for better efficiency.", 0, "Cpu"),
    MechanicService("m4", "Home Installation",
      "Level 2 charger setup at your residential property.", 1599900, "Zap")
  ]

  const InitialVehicle: Vehicle :=
    Vehicle("v1", FourWheeler, "Tata", "Nexon EV", 40.5, 65.0, false)

  /** The seed booking's price text starts with the three characters the
      UTF-8 bytes of the rupee sign become when read as Windows-1252
      (U+00E2, U+201A, U+00B9), not with the rupee sign itself. */
  const SeedPrice: string := ['\U{E2}', '\U{201A}', '\U{B9}'] + "450.00"

  const InitialBookings: seq<Booking> := [
    Booking("b1", Charging, "ElectraHub Downtown", "Oct 22, 2024", "14:30", Confirmed,
            SeedPrice, Online, "455 Market St, Mumbai", "v1", None, None)
  ]
}
