/**
 * The compiled-in catalog `est_cpus` of known operating-point tables, highest
 * frequency first. The driver writes each point with the ID16 macro from a
 * frequency in MHz, a voltage in mV and the table's bus clock; here each point
 * is the frequency and voltage step that ID16 yields for them (Codec.Id16),
 * with the MHz and mV of the driver's table beside it.
 */
module Catalog {
  import opened Codec

  /** Each row runs at a strictly lower frequency step than the row before it. */
  predicate StrictlyDecreasingFids(t: seq<Identifier>)
  {
    forall i :: 0 < i < |t| ==> FreqInc(t[i - 1]) > FreqInc(t[i])
  }

  /** The shape every catalog table has: 1 to 256 rows, highest frequency first. */
  predicate WellFormedTable(t: seq<Identifier>)
  {
    1 <= |t| <= 256 && StrictlyDecreasingFids(t)
  }

  /** A catalog table: every table literal below is checked against this shape where it is declared. */
  type CatalogTable = t: seq<Identifier> | WellFormedTable(t) witness [0]

  /** The CPU vendors the catalog distinguishes (CPUVENDOR_INTEL, CPUVENDOR_IDT) and any other. */
  datatype Vendor = Intel | Idt | OtherVendor

  /**
   * struct fqlist: a vendor, a bus-clock flag (1 for the 133 MHz bus, 0 otherwise)
   * and the table itself; `n` is the table's length.
   */
  datatype Entry = Entry(vendor: Vendor, busClk: nat, table: CatalogTable)

  /** The ENTRY macro: the bus-clock flag records whether the table is for the 133 MHz bus. */
  function MakeEntry(vendor: Vendor, bus: nat, table: CatalogTable): Entry
  {
    Entry(vendor, if bus == Bus133 then 1 else 0, table)
  }

  /** BUS_CLK: the bus clock an entry's flag stands for. */
  function BusClk(e: Entry): nat
  {
    if e.busClk != 0 then Bus133 else Bus100
  }

  /**
   * BUS_CLK gives back the bus clock an entry was declared with, for the two
   * buses the flag can record; any other bus reads back as the 100 MHz one.
   */
  lemma BusClkOfEntry(vendor: Vendor, bus: nat, table: CatalogTable)
    ensures bus == Bus100 || bus == Bus133 ==> BusClk(MakeEntry(vendor, bus, table)) == bus
    ensures bus != Bus133 ==> BusClk(MakeEntry(vendor, bus, table)) == Bus100
  {
  }

  /**
   * How the rows below were obtained, for the top point of the 2.00 GHz C7-M
   * on the 133 MHz bus: ID16 rounds 2000 MHz to frequency step 15 and 1148 mV
   * down to voltage step 28, and step 15 decodes back to 2000 MHz.
   */
  lemma Id16OnBus133()
    ensures Id16(2000, 1148, Bus133) == PhcId16(15, 28)
    ensures MsrToMHz(PhcId16(15, 28), Bus133) == 2000 && MsrToMV(PhcId16(15, 28)) == 1148
  {
    assert (2000 * 100 + 50) / Bus133 == 15;
    assert (1148 - 700) / 16 == 28;
  }

  /** Ultra Low Voltage Intel Pentium M processor 900 MHz (est_phc.c:115-119, 100 MHz bus) */
  const Pm130_900_ulv: CatalogTable := [
    PhcId16( 9, 19), //  900 MHz, 1004 mV
    PhcId16( 8, 18), //  800 MHz,  988 mV
    PhcId16( 6,  9)  //  600 MHz,  844 mV
  ]

  /** Ultra Low Voltage Intel Pentium M processor 1.00 GHz (est_phc.c:122-127, 100 MHz bus) */
  const Pm130_1000_ulv: CatalogTable := [
    PhcId16(10, 19), // 1000 MHz, 1004 mV
    PhcId16( 9, 18), //  900 MHz,  988 mV
    PhcId16( 8, 17), //  800 MHz,  972 mV
    PhcId16( 6,  9)  //  600 MHz,  844 mV
  ]

  /** Ultra Low Voltage Intel Pentium M processor 1.10 GHz (est_phc.c:130-136, 100 MHz bus) */
  const Pm130_1100_ulv: CatalogTable := [
    PhcId16(11, 19), // 1100 MHz, 1004 mV
    PhcId16(10, 18), // 1000 MHz,  988 mV
    PhcId16( 9, 17), //  900 MHz,  972 mV
    PhcId16( 8, 16), //  800 MHz,  956 mV
    PhcId16( 6,  9)  //  600 MHz,  844 mV
  ]

  /** Low Voltage Intel Pentium M processor 1.10 GHz (est_phc.c:139-145, 100 MHz bus) */
  const Pm130_1100_lv: CatalogTable := [
    PhcId16(11, 30), // 1100 MHz, 1180 mV
    PhcId16(10, 29), // 1000 MHz, 1164 mV
    PhcId16( 9, 25), //  900 MHz, 1100 mV
    PhcId16( 8, 20), //  800 MHz, 1020 mV
    PhcId16( 6, 16)  //  600 MHz,  956 mV
  ]

  /** Low Voltage Intel Pentium M processor 1.20 GHz (est_phc.c:148-155, 100 MHz bus) */
  const Pm130_1200_lv: CatalogTable := [
    PhcId16(12, 30), // 1200 MHz, 1180 mV
    PhcId16(11, 29), // 1100 MHz, 1164 mV
    PhcId16(10, 25), // 1000 MHz, 1100 mV
    PhcId16( 9, 20), //  900 MHz, 1020 mV
    PhcId16( 8, 19), //  800 MHz, 1004 mV
    PhcId16( 6, 16)  //  600 MHz,  956 mV
  ]

  /** Low Voltage Intel Pentium M processor 1.30 GHz (est_phc.c:158-166, 100 MHz bus) */
  const Pm130_1300_lv: CatalogTable := [
    PhcId16(13, 30), // 1300 MHz, 1180 mV
    PhcId16(12, 29), // 1200 MHz, 1164 mV
    PhcId16(11, 25), // 1100 MHz, 1100 mV
    PhcId16(10, 20), // 1000 MHz, 1020 mV
    PhcId16( 9, 19), //  900 MHz, 1004 mV
    PhcId16( 8, 18), //  800 MHz,  988 mV
    PhcId16( 6, 16)  //  600 MHz,  956 mV
  ]

  /** Intel Pentium M processor 1.30 GHz (est_phc.c:169-175, 100 MHz bus) */
  const Pm130_1300: CatalogTable := [
    PhcId16(13, 43), // 1300 MHz, 1388 mV
    PhcId16(12, 41), // 1200 MHz, 1356 mV
    PhcId16(10, 37), // 1000 MHz, 1292 mV
    PhcId16( 8, 35), //  800 MHz, 1260 mV
    PhcId16( 6, 16)  //  600 MHz,  956 mV
  ]

  /** Intel Pentium M processor 1.40 GHz (est_phc.c:178-184, 100 MHz bus) */
  const Pm130_1400: CatalogTable := [
    PhcId16(14, 49), // 1400 MHz, 1484 mV
    PhcId16(12, 46), // 1200 MHz, 1436 mV
    PhcId16(10, 38), // 1000 MHz, 1308 mV
    PhcId16( 8, 30), //  800 MHz, 1180 mV
    PhcId16( 6, 16)  //  600 MHz,  956 mV
  ]

  /** Intel Pentium M processor 1.50 GHz (est_phc.c:187-194, 100 MHz bus) */
  const Pm130_1500: CatalogTable := [
    PhcId16(15, 49), // 1500 MHz, 1484 mV
    PhcId16(14, 47), // 1400 MHz, 1452 mV
    PhcId16(12, 41), // 1200 MHz, 1356 mV
    PhcId16(10, 33), // 1000 MHz, 1228 mV
    PhcId16( 8, 26), //  800 MHz, 1116 mV
    PhcId16( 6, 16)  //  600 MHz,  956 mV
  ]

  /** Intel Pentium M processor 1.60 GHz (est_phc.c:197-204, 100 MHz bus) */
  const Pm130_1600: CatalogTable := [
    PhcId16(16, 49), // 1600 MHz, 1484 mV
    PhcId16(14, 45), // 1400 MHz, 1420 mV
    PhcId16(12, 36), // 1200 MHz, 1276 mV
    PhcId16(10, 29), // 1000 MHz, 1164 mV
    PhcId16( 8, 21), //  800 MHz, 1036 mV
    PhcId16( 6, 16)  //  600 MHz,  956 mV
  ]

  /** Intel Pentium M processor 1.70 GHz (est_phc.c:207-214, 100 MHz bus) */
  const Pm130_1700: CatalogTable := [
    PhcId16(17, 49), // 1700 MHz, 1484 mV
    PhcId16(14, 38), // 1400 MHz, 1308 mV
    PhcId16(12, 33), // 1200 MHz, 1228 mV
    PhcId16(10, 26), // 1000 MHz, 1116 mV
    PhcId16( 8, 19), //  800 MHz, 1004 mV
    PhcId16( 6, 16)  //  600 MHz,  956 mV
  ]

  /** Intel Pentium M processor 723 1.0 GHz (est_phc.c:217-222, 100 MHz bus) */
  const Pm90_n723: CatalogTable := [
    PhcId16(10, 15), // 1000 MHz,  940 mV
    PhcId16( 9, 13), //  900 MHz,  908 mV
    PhcId16( 8, 11), //  800 MHz,  876 mV
    PhcId16( 6,  7)  //  600 MHz,  812 mV
  ]

  /** Intel Pentium M processor 733 1.1 GHz, VID #G (est_phc.c:225-231, 100 MHz bus) */
  const Pm90_n733g: CatalogTable := [
    PhcId16(11, 16), // 1100 MHz,  956 mV
    PhcId16(10, 15), // 1000 MHz,  940 mV
    PhcId16( 9, 13), //  900 MHz,  908 mV
    PhcId16( 8, 11), //  800 MHz,  876 mV
    PhcId16( 6,  7)  //  600 MHz,  812 mV
  ]

  /** Intel Pentium M processor 733 1.1 GHz, VID #H (est_phc.c:234-240, 100 MHz bus) */
  const Pm90_n733h: CatalogTable := [
    PhcId16(11, 15), // 1100 MHz,  940 mV
    PhcId16(10, 14), // 1000 MHz,  924 mV
    PhcId16( 9, 12), //  900 MHz,  892 mV
    PhcId16( 8, 11), //  800 MHz,  876 mV
    PhcId16( 6,  7)  //  600 MHz,  812 mV
  ]

  /** Intel Pentium M processor 733 1.1 GHz, VID #I (est_phc.c:243-249, 100 MHz bus) */
  const Pm90_n733i: CatalogTable := [
    PhcId16(11, 14), // 1100 MHz,  924 mV
    PhcId16(10, 13), // 1000 MHz,  908 mV
    PhcId16( 9, 12), //  900 MHz,  892 mV
    PhcId16( 8, 10), //  800 MHz,  860 mV
    PhcId16( 6,  7)  //  600 MHz,  812 mV
  ]

  /** Intel Pentium M processor 733 1.1 GHz, VID #J (est_phc.c:252-258, 100 MHz bus) */
  const Pm90_n733j: CatalogTable := [
    PhcId16(11, 13), // 1100 MHz,  908 mV
    PhcId16(10, 12), // 1000 MHz,  892 mV
    PhcId16( 9, 11), //  900 MHz,  876 mV
    PhcId16( 8, 10), //  800 MHz,  860 mV
    PhcId16( 6,  7)  //  600 MHz,  812 mV
  ]

  /** Intel Pentium M processor 733 1.1 GHz, VID #K (est_phc.c:261-267, 100 MHz bus) */
  const Pm90_n733k: CatalogTable := [
    PhcId16(11, 12), // 1100 MHz,  892 mV
    PhcId16(10, 11), // 1000 MHz,  876 mV
    PhcId16( 9, 10), //  900 MHz,  860 mV
    PhcId16( 8,  9), //  800 MHz,  844 mV
    PhcId16( 6,  7)  //  600 MHz,  812 mV
  ]

  /** Intel Pentium M processor 733 1.1 GHz, VID #L (est_phc.c:270-276, 100 MHz bus) */
  const Pm90_n733l: CatalogTable := [
    PhcId16(11, 11), // 1100 MHz,  876 mV
    PhcId16(10, 11), // 1000 MHz,  876 mV
    PhcId16( 9, 10), //  900 MHz,  860 mV
    PhcId16( 8,  9), //  800 MHz,  844 mV
    PhcId16( 6,  7)  //  600 MHz,  812 mV
  ]

  /** Intel Pentium M processor 753 1.2 GHz, VID #G (est_phc.c:279-286, 100 MHz bus) */
  const Pm90_n753g: CatalogTable := [
    PhcId16(12, 16), // 1200 MHz,  956 mV
    PhcId16(11, 15), // 1100 MHz,  940 mV
    PhcId16(10, 13), // 1000 MHz,  908 mV
    PhcId16( 9, 12), //  900 MHz,  892 mV
    PhcId16( 8, 10), //  800 MHz,  860 mV
    PhcId16( 6,  7)  //  600 MHz,  812 mV
  ]

  /** Intel Pentium M processor 753 1.2 GHz, VID #H (est_phc.c:289-296, 100 MHz bus) */
  const Pm90_n753h: CatalogTable := [
    PhcId16(12, 15), // 1200 MHz,  940 mV
    PhcId16(11, 14), // 1100 MHz,  924 mV
    PhcId16(10, 13), // 1000 MHz,  908 mV
    PhcId16( 9, 11), //  900 MHz,  876 mV
    PhcId16( 8, 10), //  800 MHz,  860 mV
    PhcId16( 6,  7)  //  600 MHz,  812 mV
  ]

  /** Intel Pentium M processor 753 1.2 GHz, VID #I (est_phc.c:299-306, 100 MHz bus) */
  const Pm90_n753i: CatalogTable := [
    PhcId16(12, 14), // 1200 MHz,  924 mV
    PhcId16(11, 13), // 1100 MHz,  908 mV
    PhcId16(10, 12), // 1000 MHz,  892 mV
    PhcId16( 9, 11), //  900 MHz,  876 mV
    PhcId16( 8, 10), //  800 MHz,  860 mV
    PhcId16( 6,  7)  //  600 MHz,  812 mV
  ]

  /** Intel Pentium M processor 753 1.2 GHz, VID #J (est_phc.c:309-316, 100 MHz bus) */
  const Pm90_n753j: CatalogTable := [
    PhcId16(12, 13), // 1200 MHz,  908 mV
    PhcId16(11, 12), // 1100 MHz,  892 mV
    PhcId16(10, 11), // 1000 MHz,  876 mV
    PhcId16( 9, 10), //  900 MHz,  860 mV
    PhcId16( 8,  9), //  800 MHz,  844 mV
    PhcId16( 6,  7)  //  600 MHz,  812 mV
  ]

  /** Intel Pentium M processor 753 1.2 GHz, VID #K (est_phc.c:319-326, 100 MHz bus) */
  const Pm90_n753k: CatalogTable := [
    PhcId16(12, 12), // 1200 MHz,  892 mV
    PhcId16(11, 12), // 1100 MHz,  892 mV
    PhcId16(10, 11), // 1000 MHz,  876 mV
    PhcId16( 9, 10), //  900 MHz,  860 mV
    PhcId16( 8,  9), //  800 MHz,  844 mV
    PhcId16( 6,  7)  //  600 MHz,  812 mV
  ]

  /** Intel Pentium M processor 753 1.2 GHz, VID #L (est_phc.c:329-336, 100 MHz bus) */
  const Pm90_n753l: CatalogTable := [
    PhcId16(12, 11), // 1200 MHz,  876 mV
    PhcId16(11, 11), // 1100 MHz,  876 mV
    PhcId16(10, 10), // 1000 MHz,  860 mV
    PhcId16( 9,  9), //  900 MHz,  844 mV
    PhcId16( 8,  9), //  800 MHz,  844 mV
    PhcId16( 6,  7)  //  600 MHz,  812 mV
  ]

  /** Intel Pentium M processor 773 1.3 GHz, VID #G (est_phc.c:339-347, 100 MHz bus) */
  const Pm90_n773g: CatalogTable := [
    PhcId16(13, 16), // 1300 MHz,  956 mV
    PhcId16(12, 15), // 1200 MHz,  940 mV
    PhcId16(11, 14), // 1100 MHz,  924 mV
    PhcId16(10, 13), // 1000 MHz,  908 mV
    PhcId16( 9, 11), //  900 MHz,  876 mV
    PhcId16( 8, 10), //  800 MHz,  860 mV
    PhcId16( 6,  7)  //  600 MHz,  812 mV
  ]

  /** Intel Pentium M processor 773 1.3 GHz, VID #H (est_phc.c:350-358, 100 MHz bus) */
  const Pm90_n773h: CatalogTable := [
    PhcId16(13, 15), // 1300 MHz,  940 mV
    PhcId16(12, 14), // 1200 MHz,  924 mV
    PhcId16(11, 13), // 1100 MHz,  908 mV
    PhcId16(10, 12), // 1000 MHz,  892 mV
    PhcId16( 9, 11), //  900 MHz,  876 mV
    PhcId16( 8, 10), //  800 MHz,  860 mV
    PhcId16( 6,  7)  //  600 MHz,  812 mV
  ]

  /** Intel Pentium M processor 773 1.3 GHz, VID #I (est_phc.c:361-369, 100 MHz bus) */
  const Pm90_n773i: CatalogTable := [
    PhcId16(13, 14), // 1300 MHz,  924 mV
    PhcId16(12, 13), // 1200 MHz,  908 mV
    PhcId16(11, 12), // 1100 MHz,  892 mV
    PhcId16(10, 11), // 1000 MHz,  876 mV
    PhcId16( 9, 10), //  900 MHz,  860 mV
    PhcId16( 8,  9), //  800 MHz,  844 mV
    PhcId16( 6,  7)  //  600 MHz,  812 mV
  ]

  /** Intel Pentium M processor 773 1.3 GHz, VID #J (est_phc.c:372-380, 100 MHz bus) */
  const Pm90_n773j: CatalogTable := [
    PhcId16(13, 13), // 1300 MHz,  908 mV
    PhcId16(12, 13), // 1200 MHz,  908 mV
    PhcId16(11, 12), // 1100 MHz,  892 mV
    PhcId16(10, 11), // 1000 MHz,  876 mV
    PhcId16( 9, 10), //  900 MHz,  860 mV
    PhcId16( 8,  9), //  800 MHz,  844 mV
    PhcId16( 6,  7)  //  600 MHz,  812 mV
  ]

  /** Intel Pentium M processor 773 1.3 GHz, VID #K (est_phc.c:383-391, 100 MHz bus) */
  const Pm90_n773k: CatalogTable := [
    PhcId16(13, 12), // 1300 MHz,  892 mV
    PhcId16(12, 12), // 1200 MHz,  892 mV
    PhcId16(11, 11), // 1100 MHz,  876 mV
    PhcId16(10, 10), // 1000 MHz,  860 mV
    PhcId16( 9, 10), //  900 MHz,  860 mV
    PhcId16( 8,  9), //  800 MHz,  844 mV
    PhcId16( 6,  7)  //  600 MHz,  812 mV
  ]

  /** Intel Pentium M processor 773 1.3 GHz, VID #L (est_phc.c:394-402, 100 MHz bus) */
  const Pm90_n773l: CatalogTable := [
    PhcId16(13, 11), // 1300 MHz,  876 mV
    PhcId16(12, 11), // 1200 MHz,  876 mV
    PhcId16(11, 10), // 1100 MHz,  860 mV
    PhcId16(10, 10), // 1000 MHz,  860 mV
    PhcId16( 9,  9), //  900 MHz,  844 mV
    PhcId16( 8,  9), //  800 MHz,  844 mV
    PhcId16( 6,  7)  //  600 MHz,  812 mV
  ]

  /** Intel Pentium M processor 738 1.4 GHz (est_phc.c:405-414, 100 MHz bus) */
  const Pm90_n738: CatalogTable := [
    PhcId16(14, 26), // 1400 MHz, 1116 mV
    PhcId16(13, 26), // 1300 MHz, 1116 mV
    PhcId16(12, 25), // 1200 MHz, 1100 mV
    PhcId16(11, 23), // 1100 MHz, 1068 mV
    PhcId16(10, 22), // 1000 MHz, 1052 mV
    PhcId16( 9, 21), //  900 MHz, 1036 mV
    PhcId16( 8, 20), //  800 MHz, 1020 mV
    PhcId16( 6, 18)  //  600 MHz,  988 mV
  ]

  /** Intel Pentium M processor 758 1.5 GHz (est_phc.c:417-427, 100 MHz bus) */
  const Pm90_n758: CatalogTable := [
    PhcId16(15, 26), // 1500 MHz, 1116 mV
    PhcId16(14, 26), // 1400 MHz, 1116 mV
    PhcId16(13, 25), // 1300 MHz, 1100 mV
    PhcId16(12, 24), // 1200 MHz, 1084 mV
    PhcId16(11, 23), // 1100 MHz, 1068 mV
    PhcId16(10, 22), // 1000 MHz, 1052 mV
    PhcId16( 9, 21), //  900 MHz, 1036 mV
    PhcId16( 8, 20), //  800 MHz, 1020 mV
    PhcId16( 6, 18)  //  600 MHz,  988 mV
  ]

  /** Intel Pentium M processor 778 1.6 GHz (est_phc.c:430-441, 100 MHz bus) */
  const Pm90_n778: CatalogTable := [
    PhcId16(16, 26), // 1600 MHz, 1116 mV
    PhcId16(15, 26), // 1500 MHz, 1116 mV
    PhcId16(14, 25), // 1400 MHz, 1100 mV
    PhcId16(13, 30), // 1300 MHz, 1184 mV
    PhcId16(12, 23), // 1200 MHz, 1068 mV
    PhcId16(11, 22), // 1100 MHz, 1052 mV
    PhcId16(10, 22), // 1000 MHz, 1052 mV
    PhcId16( 9, 21), //  900 MHz, 1036 mV
    PhcId16( 8, 20), //  800 MHz, 1020 mV
    PhcId16( 6, 18)  //  600 MHz,  988 mV
  ]

  /** Intel Pentium M processor 710 1.4 GHz, 533 MHz FSB (est_phc.c:444-450, 133 MHz bus) */
  const Pm90_n710: CatalogTable := [
    PhcId16(10, 40), // 1400 MHz, 1340 mV
    PhcId16( 9, 33), // 1200 MHz, 1228 mV
    PhcId16( 7, 28), // 1000 MHz, 1148 mV
    PhcId16( 6, 23), //  800 MHz, 1068 mV
    PhcId16( 4, 18)  //  600 MHz,  998 mV
  ]

  /** Intel Pentium M processor 715 1.5 GHz, VID #A (est_phc.c:453-459, 100 MHz bus) */
  const Pm90_n715a: CatalogTable := [
    PhcId16(15, 40), // 1500 MHz, 1340 mV
    PhcId16(12, 33), // 1200 MHz, 1228 mV
    PhcId16(10, 28), // 1000 MHz, 1148 mV
    PhcId16( 8, 23), //  800 MHz, 1068 mV
    PhcId16( 6, 18)  //  600 MHz,  988 mV
  ]

  /** Intel Pentium M processor 715 1.5 GHz, VID #B (est_phc.c:462-468, 100 MHz bus) */
  const Pm90_n715b: CatalogTable := [
    PhcId16(15, 39), // 1500 MHz, 1324 mV
    PhcId16(12, 32), // 1200 MHz, 1212 mV
    PhcId16(10, 28), // 1000 MHz, 1148 mV
    PhcId16( 8, 23), //  800 MHz, 1068 mV
    PhcId16( 6, 18)  //  600 MHz,  988 mV
  ]

  /** Intel Pentium M processor 715 1.5 GHz, VID #C (est_phc.c:471-477, 100 MHz bus) */
  const Pm90_n715c: CatalogTable := [
    PhcId16(15, 38), // 1500 MHz, 1308 mV
    PhcId16(12, 32), // 1200 MHz, 1212 mV
    PhcId16(10, 27), // 1000 MHz, 1132 mV
    PhcId16( 8, 23), //  800 MHz, 1068 mV
    PhcId16( 6, 18)  //  600 MHz,  988 mV
  ]

  /** Intel Pentium M processor 715 1.5 GHz, VID #D (est_phc.c:480-486, 100 MHz bus) */
  const Pm90_n715d: CatalogTable := [
    PhcId16(15, 36), // 1500 MHz, 1276 mV
    PhcId16(12, 30), // 1200 MHz, 1180 mV
    PhcId16(10, 26), // 1000 MHz, 1116 mV
    PhcId16( 8, 22), //  800 MHz, 1052 mV
    PhcId16( 6, 18)  //  600 MHz,  988 mV
  ]

  /** Intel Pentium M processor 725 1.6 GHz, VID #A (est_phc.c:489-496, 100 MHz bus) */
  const Pm90_n725a: CatalogTable := [
    PhcId16(16, 40), // 1600 MHz, 1340 mV
    PhcId16(14, 36), // 1400 MHz, 1276 mV
    PhcId16(12, 32), // 1200 MHz, 1212 mV
    PhcId16(10, 27), // 1000 MHz, 1132 mV
    PhcId16( 8, 23), //  800 MHz, 1068 mV
    PhcId16( 6, 18)  //  600 MHz,  988 mV
  ]

  /** Intel Pentium M processor 725 1.6 GHz, VID #B (est_phc.c:499-506, 100 MHz bus) */
  const Pm90_n725b: CatalogTable := [
    PhcId16(16, 39), // 1600 MHz, 1324 mV
    PhcId16(14, 35), // 1400 MHz, 1260 mV
    PhcId16(12, 31), // 1200 MHz, 1196 mV
    PhcId16(10, 27), // 1000 MHz, 1132 mV
    PhcId16( 8, 23), //  800 MHz, 1068 mV
    PhcId16( 6, 18)  //  600 MHz,  988 mV
  ]

  /** Intel Pentium M processor 725 1.6 GHz, VID #C (est_phc.c:509-516, 100 MHz bus) */
  const Pm90_n725c: CatalogTable := [
    PhcId16(16, 38), // 1600 MHz, 1308 mV
    PhcId16(14, 34), // 1400 MHz, 1244 mV
    PhcId16(12, 30), // 1200 MHz, 1180 mV
    PhcId16(10, 26), // 1000 MHz, 1116 mV
    PhcId16( 8, 22), //  800 MHz, 1052 mV
    PhcId16( 6, 18)  //  600 MHz,  988 mV
  ]

  /** Intel Pentium M processor 725 1.6 GHz, VID #D (est_phc.c:519-526, 100 MHz bus) */
  const Pm90_n725d: CatalogTable := [
    PhcId16(16, 36), // 1600 MHz, 1276 mV
    PhcId16(14, 33), // 1400 MHz, 1228 mV
    PhcId16(12, 29), // 1200 MHz, 1164 mV
    PhcId16(10, 26), // 1000 MHz, 1116 mV
    PhcId16( 8, 22), //  800 MHz, 1052 mV
    PhcId16( 6, 18)  //  600 MHz,  988 mV
  ]

  /** Intel Pentium M processor 730 1.6 GHz, 533 MHz FSB (est_phc.c:529-535, 133 MHz bus) */
  const Pm90_n730: CatalogTable := [
    PhcId16(12, 38), // 1600 MHz, 1308 mV
    PhcId16(10, 35), // 1333 MHz, 1260 mV
    PhcId16( 9, 32), // 1200 MHz, 1212 mV
    PhcId16( 8, 30), // 1067 MHz, 1180 mV
    PhcId16( 6, 18)  //  800 MHz,  988 mV
  ]

  /** Intel Pentium M processor 735 1.7 GHz, VID #A (est_phc.c:538-545, 100 MHz bus) */
  const Pm90_n735a: CatalogTable := [
    PhcId16(17, 40), // 1700 MHz, 1340 mV
    PhcId16(14, 34), // 1400 MHz, 1244 mV
    PhcId16(12, 30), // 1200 MHz, 1180 mV
    PhcId16(10, 26), // 1000 MHz, 1116 mV
    PhcId16( 8, 22), //  800 MHz, 1052 mV
    PhcId16( 6, 18)  //  600 MHz,  988 mV
  ]

  /** Intel Pentium M processor 735 1.7 GHz, VID #B (est_phc.c:548-555, 100 MHz bus) */
  const Pm90_n735b: CatalogTable := [
    PhcId16(17, 39), // 1700 MHz, 1324 mV
    PhcId16(14, 34), // 1400 MHz, 1244 mV
    PhcId16(12, 30), // 1200 MHz, 1180 mV
    PhcId16(10, 26), // 1000 MHz, 1116 mV
    PhcId16( 8, 22), //  800 MHz, 1052 mV
    PhcId16( 6, 18)  //  600 MHz,  988 mV
  ]

  /** Intel Pentium M processor 735 1.7 GHz, VID #C (est_phc.c:558-565, 100 MHz bus) */
  const Pm90_n735c: CatalogTable := [
    PhcId16(17, 38), // 1700 MHz, 1308 mV
    PhcId16(14, 33), // 1400 MHz, 1228 mV
    PhcId16(12, 29), // 1200 MHz, 1164 mV
    PhcId16(10, 26), // 1000 MHz, 1116 mV
    PhcId16( 8, 22), //  800 MHz, 1052 mV
    PhcId16( 6, 18)  //  600 MHz,  988 mV
  ]

  /** Intel Pentium M processor 735 1.7 GHz, VID #D (est_phc.c:568-575, 100 MHz bus) */
  const Pm90_n735d: CatalogTable := [
    PhcId16(17, 36), // 1700 MHz, 1276 mV
    PhcId16(14, 32), // 1400 MHz, 1212 mV
    PhcId16(12, 28), // 1200 MHz, 1148 mV
    PhcId16(10, 25), // 1000 MHz, 1100 mV
    PhcId16( 8, 22), //  800 MHz, 1052 mV
    PhcId16( 6, 18)  //  600 MHz,  988 mV
  ]

  /** Intel Pentium M processor 740 1.73 GHz, 533 MHz FSB (est_phc.c:578-583, 133 MHz bus) */
  const Pm90_n740: CatalogTable := [
    PhcId16(13, 41), // 1733 MHz, 1356 mV
    PhcId16(10, 32), // 1333 MHz, 1212 mV
    PhcId16( 8, 25), // 1067 MHz, 1100 mV
    PhcId16( 6, 18)  //  800 MHz,  988 mV
  ]

  /** Intel Pentium M processor 745 1.8 GHz, VID #A (est_phc.c:586-594, 100 MHz bus) */
  const Pm90_n745a: CatalogTable := [
    PhcId16(18, 40), // 1800 MHz, 1340 mV
    PhcId16(16, 37), // 1600 MHz, 1292 mV
    PhcId16(14, 33), // 1400 MHz, 1228 mV
    PhcId16(12, 29), // 1200 MHz, 1164 mV
    PhcId16(10, 26), // 1000 MHz, 1116 mV
    PhcId16( 8, 22), //  800 MHz, 1052 mV
    PhcId16( 6, 18)  //  600 MHz,  988 mV
  ]

  /** Intel Pentium M processor 745 1.8 GHz, VID #B (est_phc.c:597-605, 100 MHz bus) */
  const Pm90_n745b: CatalogTable := [
    PhcId16(18, 39), // 1800 MHz, 1324 mV
    PhcId16(16, 36), // 1600 MHz, 1276 mV
    PhcId16(14, 32), // 1400 MHz, 1212 mV
    PhcId16(12, 29), // 1200 MHz, 1164 mV
    PhcId16(10, 26), // 1000 MHz, 1116 mV
    PhcId16( 8, 22), //  800 MHz, 1052 mV
    PhcId16( 6, 18)  //  600 MHz,  988 mV
  ]

  /** Intel Pentium M processor 745 1.8 GHz, VID #C (est_phc.c:608-616, 100 MHz bus) */
  const Pm90_n745c: CatalogTable := [
    PhcId16(18, 38), // 1800 MHz, 1308 mV
    PhcId16(16, 35), // 1600 MHz, 1260 mV
    PhcId16(14, 32), // 1400 MHz, 1212 mV
    PhcId16(12, 28), // 1200 MHz, 1148 mV
    PhcId16(10, 25), // 1000 MHz, 1100 mV
    PhcId16( 8, 22), //  800 MHz, 1052 mV
    PhcId16( 6, 18)  //  600 MHz,  988 mV
  ]

  /** Intel Pentium M processor 745 1.8 GHz, VID #D (est_phc.c:619-627, 100 MHz bus) */
  const Pm90_n745d: CatalogTable := [
    PhcId16(18, 36), // 1800 MHz, 1276 mV
    PhcId16(16, 33), // 1600 MHz, 1228 mV
    PhcId16(14, 30), // 1400 MHz, 1180 mV
    PhcId16(12, 27), // 1200 MHz, 1132 mV
    PhcId16(10, 24), // 1000 MHz, 1084 mV
    PhcId16( 8, 21), //  800 MHz, 1036 mV
    PhcId16( 6, 18)  //  600 MHz,  988 mV
  ]

  /** values extracted from \_PR\NPSS (via _PSS) SDST ACPI table (est_phc.c:631-637, 133 MHz bus) */
  const Pm90_n750: CatalogTable := [
    PhcId16(14, 38), // 1867 MHz, 1308 mV
    PhcId16(12, 33), // 1600 MHz, 1228 mV
    PhcId16(10, 28), // 1333 MHz, 1148 mV
    PhcId16( 8, 23), // 1067 MHz, 1068 mV
    PhcId16( 6, 18)  //  800 MHz,  988 mV
  ]

  /** Intel Pentium M processor 755 2.0 GHz, VID #A (est_phc.c:640-649, 100 MHz bus) */
  const Pm90_n755a: CatalogTable := [
    PhcId16(20, 40), // 2000 MHz, 1340 mV
    PhcId16(18, 37), // 1800 MHz, 1292 mV
    PhcId16(16, 34), // 1600 MHz, 1244 mV
    PhcId16(14, 31), // 1400 MHz, 1196 mV
    PhcId16(12, 28), // 1200 MHz, 1148 mV
    PhcId16(10, 25), // 1000 MHz, 1100 mV
    PhcId16( 8, 22), //  800 MHz, 1052 mV
    PhcId16( 6, 18)  //  600 MHz,  988 mV
  ]

  /** Intel Pentium M processor 755 2.0 GHz, VID #B (est_phc.c:652-661, 100 MHz bus) */
  const Pm90_n755b: CatalogTable := [
    PhcId16(20, 39), // 2000 MHz, 1324 mV
    PhcId16(18, 36), // 1800 MHz, 1276 mV
    PhcId16(16, 33), // 1600 MHz, 1228 mV
    PhcId16(14, 30), // 1400 MHz, 1180 mV
    PhcId16(12, 27), // 1200 MHz, 1132 mV
    PhcId16(10, 24), // 1000 MHz, 1084 mV
    PhcId16( 8, 21), //  800 MHz, 1036 mV
    PhcId16( 6, 18)  //  600 MHz,  988 mV
  ]

  /** Intel Pentium M processor 755 2.0 GHz, VID #C (est_phc.c:664-673, 100 MHz bus) */
  const Pm90_n755c: CatalogTable := [
    PhcId16(20, 38), // 2000 MHz, 1308 mV
    PhcId16(18, 36), // 1800 MHz, 1276 mV
    PhcId16(16, 33), // 1600 MHz, 1228 mV
    PhcId16(14, 30), // 1400 MHz, 1180 mV
    PhcId16(12, 27), // 1200 MHz, 1132 mV
    PhcId16(10, 24), // 1000 MHz, 1084 mV
    PhcId16( 8, 21), //  800 MHz, 1036 mV
    PhcId16( 6, 18)  //  600 MHz,  988 mV
  ]

  /** Intel Pentium M processor 755 2.0 GHz, VID #D (est_phc.c:676-685, 100 MHz bus) */
  const Pm90_n755d: CatalogTable := [
    PhcId16(20, 36), // 2000 MHz, 1276 mV
    PhcId16(18, 34), // 1800 MHz, 1244 mV
    PhcId16(16, 31), // 1600 MHz, 1196 mV
    PhcId16(14, 29), // 1400 MHz, 1164 mV
    PhcId16(12, 26), // 1200 MHz, 1116 mV
    PhcId16(10, 24), // 1000 MHz, 1084 mV
    PhcId16( 8, 21), //  800 MHz, 1036 mV
    PhcId16( 6, 18)  //  600 MHz,  988 mV
  ]

  /** Intel Pentium M processor 760 2.0 GHz, 533 MHz FSB (est_phc.c:688-694, 133 MHz bus) */
  const Pm90_n760: CatalogTable := [
    PhcId16(15, 41), // 2000 MHz, 1356 mV
    PhcId16(12, 34), // 1600 MHz, 1244 mV
    PhcId16(10, 29), // 1333 MHz, 1164 mV
    PhcId16( 8, 24), // 1067 MHz, 1084 mV
    PhcId16( 6, 18)  //  800 MHz,  988 mV
  ]

  /** Intel Pentium M processor 765 2.1 GHz, VID #A (est_phc.c:697-706, 100 MHz bus) */
  const Pm90_n765a: CatalogTable := [
    PhcId16(21, 40), // 2100 MHz, 1340 mV
    PhcId16(18, 36), // 1800 MHz, 1276 mV
    PhcId16(16, 33), // 1600 MHz, 1228 mV
    PhcId16(14, 30), // 1400 MHz, 1180 mV
    PhcId16(12, 27), // 1200 MHz, 1132 mV
    PhcId16(10, 24), // 1000 MHz, 1084 mV
    PhcId16( 8, 21), //  800 MHz, 1036 mV
    PhcId16( 6, 18)  //  600 MHz,  988 mV
  ]

  /** Intel Pentium M processor 765 2.1 GHz, VID #B (est_phc.c:709-718, 100 MHz bus) */
  const Pm90_n765b: CatalogTable := [
    PhcId16(21, 39), // 2100 MHz, 1324 mV
    PhcId16(18, 35), // 1800 MHz, 1260 mV
    PhcId16(16, 32), // 1600 MHz, 1212 mV
    PhcId16(14, 30), // 1400 MHz, 1180 mV
    PhcId16(12, 27), // 1200 MHz, 1132 mV
    PhcId16(10, 24), // 1000 MHz, 1084 mV
    PhcId16( 8, 21), //  800 MHz, 1036 mV
    PhcId16( 6, 18)  //  600 MHz,  988 mV
  ]

  /** Intel Pentium M processor 765 2.1 GHz, VID #C (est_phc.c:721-730, 100 MHz bus) */
  const Pm90_n765c: CatalogTable := [
    PhcId16(21, 38), // 2100 MHz, 1308 mV
    PhcId16(18, 34), // 1800 MHz, 1244 mV
    PhcId16(16, 32), // 1600 MHz, 1212 mV
    PhcId16(14, 29), // 1400 MHz, 1164 mV
    PhcId16(12, 26), // 1200 MHz, 1116 mV
    PhcId16(10, 24), // 1000 MHz, 1084 mV
    PhcId16( 8, 21), //  800 MHz, 1036 mV
    PhcId16( 6, 18)  //  600 MHz,  988 mV
  ]

  /** Intel Pentium M processor 765 2.1 GHz, VID #E (est_phc.c:733-742, 100 MHz bus) */
  const Pm90_n765e: CatalogTable := [
    PhcId16(21, 41), // 2100 MHz, 1356 mV
    PhcId16(18, 37), // 1800 MHz, 1292 mV
    PhcId16(16, 34), // 1600 MHz, 1244 mV
    PhcId16(14, 31), // 1400 MHz, 1196 mV
    PhcId16(12, 28), // 1200 MHz, 1148 mV
    PhcId16(10, 25), // 1000 MHz, 1100 mV
    PhcId16( 8, 22), //  800 MHz, 1052 mV
    PhcId16( 6, 18)  //  600 MHz,  988 mV
  ]

  /** Intel Pentium M processor 770 2.13 GHz (est_phc.c:745-752, 133 MHz bus) */
  const Pm90_n770: CatalogTable := [
    PhcId16(16, 41), // 2133 MHz, 1356 mV
    PhcId16(14, 37), // 1867 MHz, 1292 mV
    PhcId16(12, 32), // 1600 MHz, 1212 mV
    PhcId16(10, 28), // 1333 MHz, 1148 mV
    PhcId16( 8, 23), // 1067 MHz, 1068 mV
    PhcId16( 6, 18)  //  800 MHz,  988 mV
  ]

  /** Intel Pentium M processor 780 2.26 GHz (est_phc.c:755-762, 133 MHz bus) */
  const Pm90_n780: CatalogTable := [
    PhcId16(17, 43), // 2267 MHz, 1388 mV
    PhcId16(14, 37), // 1867 MHz, 1292 mV
    PhcId16(12, 32), // 1600 MHz, 1212 mV
    PhcId16(10, 28), // 1333 MHz, 1148 mV
    PhcId16( 8, 23), // 1067 MHz, 1068 mV
    PhcId16( 6, 18)  //  800 MHz,  988 mV
  ]

  /** 1.00GHz Centaur C7-M ULV (est_phc.c:770-775, 100 MHz bus) */
  const C7M_770_ULV: CatalogTable := [
    PhcId16(10,  9), // 1000 MHz,  844 mV
    PhcId16( 8,  6), //  800 MHz,  796 mV
    PhcId16( 6,  6), //  600 MHz,  796 mV
    PhcId16( 4,  6)  //  400 MHz,  796 mV
  ]

  /** 1.00GHz Centaur C7-M ULV (est_phc.c:778-783, 100 MHz bus) */
  const C7M_779_ULV: CatalogTable := [
    PhcId16(10,  6), // 1000 MHz,  796 mV
    PhcId16( 8,  6), //  800 MHz,  796 mV
    PhcId16( 6,  6), //  600 MHz,  796 mV
    PhcId16( 4,  6)  //  400 MHz,  796 mV
  ]

  /** 1.20GHz Centaur C7-M ULV (est_phc.c:786-792, 100 MHz bus) */
  const C7M_772_ULV: CatalogTable := [
    PhcId16(12,  9), // 1200 MHz,  844 mV
    PhcId16(10,  9), // 1000 MHz,  844 mV
    PhcId16( 8,  8), //  800 MHz,  828 mV
    PhcId16( 6,  6), //  600 MHz,  796 mV
    PhcId16( 4,  6)  //  400 MHz,  796 mV
  ]

  /** 1.50GHz Centaur C7-M ULV (est_phc.c:795-802, 100 MHz bus) */
  const C7M_775_ULV: CatalogTable := [
    PhcId16(15, 16), // 1500 MHz,  956 mV
    PhcId16(14, 15), // 1400 MHz,  940 mV
    PhcId16(10, 10), // 1000 MHz,  860 mV
    PhcId16( 8,  8), //  800 MHz,  828 mV
    PhcId16( 6,  6), //  600 MHz,  796 mV
    PhcId16( 4,  6)  //  400 MHz,  796 mV
  ]

  /** 1.20GHz Centaur C7-M 400 MHz FSB (est_phc.c:805-811, 100 MHz bus) */
  const C7M_771: CatalogTable := [
    PhcId16(12, 10), // 1200 MHz,  860 mV
    PhcId16(10, 10), // 1000 MHz,  860 mV
    PhcId16( 8,  9), //  800 MHz,  844 mV
    PhcId16( 6,  9), //  600 MHz,  844 mV
    PhcId16( 4,  9)  //  400 MHz,  844 mV
  ]

  /** 1.50GHz Centaur C7-M 400 MHz FSB (est_phc.c:814-821, 100 MHz bus) */
  const C7M_754: CatalogTable := [
    PhcId16(15, 19), // 1500 MHz, 1004 mV
    PhcId16(14, 18), // 1400 MHz,  988 mV
    PhcId16(10, 15), // 1000 MHz,  940 mV
    PhcId16( 8,  9), //  800 MHz,  844 mV
    PhcId16( 6,  9), //  600 MHz,  844 mV
    PhcId16( 4,  9)  //  400 MHz,  844 mV
  ]

  /** 1.60GHz Centaur C7-M 400 MHz FSB (est_phc.c:824-831, 100 MHz bus) */
  const C7M_764: CatalogTable := [
    PhcId16(16, 24), // 1600 MHz, 1084 mV
    PhcId16(14, 22), // 1400 MHz, 1052 mV
    PhcId16(10, 19), // 1000 MHz, 1004 mV
    PhcId16( 8,  9), //  800 MHz,  844 mV
    PhcId16( 6,  9), //  600 MHz,  844 mV
    PhcId16( 4,  9)  //  400 MHz,  844 mV
  ]

  /** 1.80GHz Centaur C7-M 400 MHz FSB (est_phc.c:834-842, 100 MHz bus) */
  const C7M_784: CatalogTable := [
    PhcId16(18, 28), // 1800 MHz, 1148 mV
    PhcId16(16, 25), // 1600 MHz, 1100 mV
    PhcId16(14, 22), // 1400 MHz, 1052 mV
    PhcId16(10, 19), // 1000 MHz, 1004 mV
    PhcId16( 8,  9), //  800 MHz,  844 mV
    PhcId16( 6,  9), //  600 MHz,  844 mV
    PhcId16( 4,  9)  //  400 MHz,  844 mV
  ]

  /** 2.00GHz Centaur C7-M 400 MHz FSB (est_phc.c:845-854, 100 MHz bus) */
  const C7M_794: CatalogTable := [
    PhcId16(20, 28), // 2000 MHz, 1148 mV
    PhcId16(18, 27), // 1800 MHz, 1132 mV
    PhcId16(16, 25), // 1600 MHz, 1100 mV
    PhcId16(14, 22), // 1400 MHz, 1052 mV
    PhcId16(10, 19), // 1000 MHz, 1004 mV
    PhcId16( 8,  9), //  800 MHz,  844 mV
    PhcId16( 6,  9), //  600 MHz,  844 mV
    PhcId16( 4,  9)  //  400 MHz,  844 mV
  ]

  /** 1.60GHz Centaur C7-M 533 MHz FSB (est_phc.c:857-864, 133 MHz bus) */
  const C7M_765: CatalogTable := [
    PhcId16(12, 24), // 1600 MHz, 1084 mV
    PhcId16(11, 22), // 1467 MHz, 1052 mV
    PhcId16( 9, 19), // 1200 MHz, 1004 mV
    PhcId16( 6,  9), //  800 MHz,  844 mV
    PhcId16( 5,  9), //  667 MHz,  844 mV
    PhcId16( 4,  9)  //  533 MHz,  844 mV
  ]

  /** 2.00GHz Centaur C7-M 533 MHz FSB (est_phc.c:867-875, 133 MHz bus) */
  const C7M_785: CatalogTable := [
    PhcId16(14, 28), // 1867 MHz, 1148 mV
    PhcId16(12, 25), // 1600 MHz, 1100 mV
    PhcId16(11, 22), // 1467 MHz, 1052 mV
    PhcId16( 9, 19), // 1200 MHz, 1004 mV
    PhcId16( 6,  9), //  800 MHz,  844 mV
    PhcId16( 5,  9), //  667 MHz,  844 mV
    PhcId16( 4,  9)  //  533 MHz,  844 mV
  ]

  /** 2.00GHz Centaur C7-M 533 MHz FSB (est_phc.c:878-887, 133 MHz bus) */
  const C7M_795: CatalogTable := [
    PhcId16(15, 28), // 2000 MHz, 1148 mV
    PhcId16(14, 27), // 1867 MHz, 1132 mV
    PhcId16(12, 25), // 1600 MHz, 1100 mV
    PhcId16(11, 22), // 1467 MHz, 1052 mV
    PhcId16( 9, 19), // 1200 MHz, 1004 mV
    PhcId16( 6,  9), //  800 MHz,  844 mV
    PhcId16( 5,  9), //  667 MHz,  844 mV
    PhcId16( 4,  9)  //  533 MHz,  844 mV
  ]

  /** 1.00GHz VIA Eden 90nm 'Esther' (est_phc.c:890-895, 100 MHz bus) */
  const Eden90_1000: CatalogTable := [
    PhcId16(10,  9), // 1000 MHz,  844 mV
    PhcId16( 8,  9), //  800 MHz,  844 mV
    PhcId16( 6,  9), //  600 MHz,  844 mV
    PhcId16( 4,  9)  //  400 MHz,  844 mV
  ]

  /** est_cpus, in the driver's order (est_phc.c:909-990). */
  const EstCpus: seq<Entry> := [
    MakeEntry(Intel, Bus100, Pm130_900_ulv),
    MakeEntry(Intel, Bus100, Pm130_1000_ulv),
    MakeEntry(Intel, Bus100, Pm130_1100_ulv),
    MakeEntry(Intel, Bus100, Pm130_1100_lv),
    MakeEntry(Intel, Bus100, Pm130_1200_lv),
    MakeEntry(Intel, Bus100, Pm130_1300_lv),
    MakeEntry(Intel, Bus100, Pm130_1300),
    MakeEntry(Intel, Bus100, Pm130_1400),
    MakeEntry(Intel, Bus100, Pm130_1500),
    MakeEntry(Intel, Bus100, Pm130_1600),
    MakeEntry(Intel, Bus100, Pm130_1700),
    MakeEntry(Intel, Bus100, Pm90_n723),
    MakeEntry(Intel, Bus100, Pm90_n733g),
    MakeEntry(Intel, Bus100, Pm90_n733h),
    MakeEntry(Intel, Bus100, Pm90_n733i),
    MakeEntry(Intel, Bus100, Pm90_n733j),
    MakeEntry(Intel, Bus100, Pm90_n733k),
    MakeEntry(Intel, Bus100, Pm90_n733l),
    MakeEntry(Intel, Bus100, Pm90_n753g),
    MakeEntry(Intel, Bus100, Pm90_n753h),
    MakeEntry(Intel, Bus100, Pm90_n753i),
    MakeEntry(Intel, Bus100, Pm90_n753j),
    MakeEntry(Intel, Bus100, Pm90_n753k),
    MakeEntry(Intel, Bus100, Pm90_n753l),
    MakeEntry(Intel, Bus100, Pm90_n773g),
    MakeEntry(Intel, Bus100, Pm90_n773h),
    MakeEntry(Intel, Bus100, Pm90_n773i),
    MakeEntry(Intel, Bus100, Pm90_n773j),
    MakeEntry(Intel, Bus100, Pm90_n773k),
    MakeEntry(Intel, Bus100, Pm90_n773l),
    MakeEntry(Intel, Bus100, Pm90_n738),
    MakeEntry(Intel, Bus100, Pm90_n758),
    MakeEntry(Intel, Bus100, Pm90_n778),
    MakeEntry(Intel, Bus133, Pm90_n710),
    MakeEntry(Intel, Bus100, Pm90_n715a),
    MakeEntry(Intel, Bus100, Pm90_n715b),
    MakeEntry(Intel, Bus100, Pm90_n715c),
    MakeEntry(Intel, Bus100, Pm90_n715d),
    MakeEntry(Intel, Bus100, Pm90_n725a),
    MakeEntry(Intel, Bus100, Pm90_n725b),
    MakeEntry(Intel, Bus100, Pm90_n725c),
    MakeEntry(Intel, Bus100, Pm90_n725d),
    MakeEntry(Intel, Bus133, Pm90_n730),
    MakeEntry(Intel, Bus100, Pm90_n735a),
    MakeEntry(Intel, Bus100, Pm90_n735b),
    MakeEntry(Intel, Bus100, Pm90_n735c),
    MakeEntry(Intel, Bus100, Pm90_n735d),
    MakeEntry(Intel, Bus133, Pm90_n740),
    MakeEntry(Intel, Bus100, Pm90_n745a),
    MakeEntry(Intel, Bus100, Pm90_n745b),
    MakeEntry(Intel, Bus100, Pm90_n745c),
    MakeEntry(Intel, Bus100, Pm90_n745d),
    MakeEntry(Intel, Bus133, Pm90_n750),
    MakeEntry(Intel, Bus100, Pm90_n755a),
    MakeEntry(Intel, Bus100, Pm90_n755b),
    MakeEntry(Intel, Bus100, Pm90_n755c),
    MakeEntry(Intel, Bus100, Pm90_n755d),
    MakeEntry(Intel, Bus133, Pm90_n760),
    MakeEntry(Intel, Bus100, Pm90_n765a),
    MakeEntry(Intel, Bus100, Pm90_n765b),
    MakeEntry(Intel, Bus100, Pm90_n765c),
    MakeEntry(Intel, Bus100, Pm90_n765e),
    MakeEntry(Intel, Bus133, Pm90_n770),
    MakeEntry(Intel, Bus133, Pm90_n780),
    MakeEntry(Idt, Bus100, C7M_770_ULV),
    MakeEntry(Idt, Bus100, C7M_779_ULV),
    MakeEntry(Idt, Bus100, C7M_772_ULV),
    MakeEntry(Idt, Bus100, C7M_771),
    MakeEntry(Idt, Bus100, C7M_775_ULV),
    MakeEntry(Idt, Bus100, C7M_754),
    MakeEntry(Idt, Bus100, C7M_764),
    MakeEntry(Idt, Bus133, C7M_765),
    MakeEntry(Idt, Bus100, C7M_784),
    MakeEntry(Idt, Bus133, C7M_785),
    MakeEntry(Idt, Bus100, C7M_794),
    MakeEntry(Idt, Bus133, C7M_795),
    MakeEntry(Idt, Bus100, Eden90_1000)
  ]
}
