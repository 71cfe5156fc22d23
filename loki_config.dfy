/** The LoKI detector configuration (examples/loki/detector_banks_geo.py):
    the tube and straw constants and the corner points of the nine detector
    banks. */
module LokiConfig {
  import opened Vectors

  const FractionalPrecision: nat := 2
  /** Diameter of an imaging tube; the minimum tube spacing. */
  const ImagingTubeD: real := 25.4
  /** Rows of tubes in a bank. */
  const TubeDepth: nat := 4
  const NumStrawsPerTube: nat := 7
  const StrawDiameter: real := 8.0
  /** Pixels along one straw. */
  const StrawResolution: nat := 512
  const StrawYLoc: real := 1.14
  const StrawZLoc: real := 7.67
  /** STRAW_ALIGNMENT_OFFSET_ANGLE, in degrees (the source converts 5 degrees
      to radians; the model keeps angles in degrees throughout). */
  const StrawAlignmentOffsetDeg: real := 5.0

  /** One entry of loki_banks: the four corners of face A, the four
      corresponding corners of face B, and the number of tubes. */
  datatype BankRecord = BankRecord(a: seq<Vec3>, b: seq<Vec3>, numTubes: nat)

  /** loki_banks, indexed by bank id 0..8. */
  const LokiBanks: seq<BankRecord> := [
    BankRecord([Vec3(-500.0, -781.0, 5012.5), Vec3(-500.0, -799.84, 5091.28),
                Vec3(-500.0, 781.0, 5012.5), Vec3(-500.0, 762.16, 5091.28)],
               [Vec3(500.0, -781.0, 5012.5), Vec3(500.0, -799.84, 5091.28),
                Vec3(500.0, 781.0, 5012.5), Vec3(500.0, 762.16, 5091.28)],
               224),
    BankRecord([Vec3(-500.0, -710.24, 2899.18), Vec3(-500.0, -699.24, 2979.43),
                Vec3(-500.0, -286.34, 2941.42), Vec3(-500.0, -275.35, 3021.67)],
               [Vec3(500.0, -710.24, 2899.18), Vec3(500.0, -699.24, 2979.43),
                Vec3(500.0, -286.34, 2941.42), Vec3(500.0, -275.35, 3021.67)],
               64),
    BankRecord([Vec3(-535.94, -250.0, 3328.75), Vec3(-523.26, -250.0, 3408.75),
                Vec3(-224.49, -250.0, 3353.18), Vec3(-211.82, -250.0, 3433.19)],
               [Vec3(-535.94, 250.0, 3328.75), Vec3(-523.26, 250.0, 3408.75),
                Vec3(-224.49, 250.0, 3353.18), Vec3(-211.82, 250.0, 3433.19)],
               48),
    BankRecord([Vec3(-500.0, 286.33, 2941.34), Vec3(-500.0, 275.34, 3021.59),
                Vec3(-500.0, 710.23, 2899.11), Vec3(-500.0, 699.24, 2979.36)],
               [Vec3(500.0, 286.33, 2941.34), Vec3(500.0, 275.34, 3021.59),
                Vec3(500.0, 710.23, 2899.11), Vec3(500.0, 699.24, 2979.36)],
               64),
    BankRecord([Vec3(224.49, -250.0, 3353.11), Vec3(211.82, -250.0, 3433.11),
                Vec3(535.93, -250.0, 3328.67), Vec3(523.26, -250.0, 3408.67)],
               [Vec3(224.49, 250.0, 3353.11), Vec3(211.82, 250.0, 3433.11),
                Vec3(535.93, 250.0, 3328.67), Vec3(523.26, 250.0, 3408.67)],
               48),
    BankRecord([Vec3(-700.0, -1096.67, 1051.39), Vec3(-700.0, -1102.32, 1132.19),
                Vec3(-700.0, -365.34, 1281.9), Vec3(-700.0, -370.99, 1362.7)],
               [Vec3(500.0, -1096.67, 1051.39), Vec3(500.0, -1102.32, 1132.19),
                Vec3(500.0, -365.34, 1281.9), Vec3(500.0, -370.99, 1362.7)],
               112),
    BankRecord([Vec3(-1191.15, -585.0, 1509.59), Vec3(-1187.05, -585.0, 1590.49),
                Vec3(-325.76, -585.0, 1671.47), Vec3(-321.66, -585.0, 1752.37)],
               [Vec3(-1191.15, 615.0, 1509.59), Vec3(-1187.05, 615.0, 1590.49),
                Vec3(-325.76, 615.0, 1671.47), Vec3(-321.66, 615.0, 1752.37)],
               128),
    BankRecord([Vec3(-500.0, 365.36, 1281.97), Vec3(-500.0, 371.01, 1362.77),
                Vec3(-500.0, 880.0, 1119.78), Vec3(-500.0, 885.65, 1200.58)],
               [Vec3(700.0, 365.36, 1281.97), Vec3(700.0, 371.01, 1362.77),
                Vec3(700.0, 880.0, 1119.78), Vec3(700.0, 885.65, 1200.58)],
               80),
    BankRecord([Vec3(325.62, -650.0, 1670.71), Vec3(321.52, -650.0, 1751.61),
                Vec3(1191.14, -650.0, 1509.52), Vec3(1187.04, -650.0, 1590.41)],
               [Vec3(325.62, 550.0, 1670.71), Vec3(321.52, 550.0, 1751.61),
                Vec3(1191.14, 550.0, 1509.52), Vec3(1187.04, 550.0, 1590.41)],
               128)
  ]
}
