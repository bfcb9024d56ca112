/** The fixed table of monitored mining sites (`allIndianMines`) and the
    coordinate pairs the dashboard passes to the map. */
module Sites {
  import opened Wrappers

  /** A `[lat, lon]` pair as held in the dashboard's `mapCenter`. A coordinate
      is `None` when it was read from a geocoding reply that lacked it. */
  datatype LatLng = LatLng(lat: Option<real>, lon: Option<real>)

  /** A pair of two known coordinates. */
  function At(lat: real, lon: real): LatLng {
    LatLng(Some(lat), Some(lon))
  }

  /** A monitored site: unique id, display name and position. */
  datatype Mine = Mine(uid: string, name: string, lat: real, lon: real)

  const AllIndianMines: seq<Mine> := [
    Mine("mine-1", "Jharia Coalfield, Dhanbad", 23.75, 86.42),
    Mine("mine-2", "Raniganj Coalfield, West Bengal", 23.61, 87.12),
    Mine("mine-3", "Bokaro Coalfield, Jharkhand", 23.78, 85.86),
    Mine("mine-4", "Talcher Coalfield, Odisha", 20.95, 85.22),
    Mine("mine-5", "Singrauli Coalfield, MP", 24.19, 82.67),
    Mine("mine-6", "Gevra Mine, Korba", 22.33, 82.55),
    Mine("mine-7", "Kusmunda Mine, Korba", 22.32, 82.71),
    Mine("mine-8", "Neyveli Lignite Mine, Tamil Nadu", 11.61, 79.48),
    Mine("mine-9", "Singareni Collieries, Telangana", 17.50, 80.28),
    Mine("mine-10", "North Karanpura Coalfield", 23.85, 85.25),
    Mine("mine-11", "Kamptee Coalfield, Nagpur", 21.22, 79.11),
    Mine("mine-12", "Ledo Coal Mine, Assam", 27.29, 95.73),
    Mine("mine-13", "Darrangiri Coalfield, Meghalaya", 25.45, 90.71),
    Mine("mine-14", "Sohagpur Coalfield, MP", 23.30, 81.35),
    Mine("mine-15", "Chandrapur (Majri Area), Maharashtra", 19.97, 79.29),
    Mine("mine-16", "Umrer (Nagpur District), Maharashtra", 20.85, 79.33),
    Mine("mine-17", "Kapurdi Lignite Mine (Barmer), Rajasthan", 25.88, 71.37),
    Mine("mine-18", "Matasukh Lignite Mine (Nagaur), Rajasthan", 27.08, 74.02),
    Mine("mine-19", "Panandhro Lignite Mine (Kutch), Gujarat", 23.68, 69.25),
    Mine("mine-20", "Rajpardi Lignite Mine (Bharuch), Gujarat", 21.68, 73.22),
    Mine("mine-21", "Jayant Coal Mine (Singrauli), MP", 24.12, 82.63),
    Mine("mine-22", "Gulbarga Region Mines, Karnataka", 17.33, 76.83)
  ]

  /** No two sites share a uid (the map keys its markers by uid). */
  predicate UidsDistinct(mines: seq<Mine>) {
    forall i, j :: 0 <= i < j < |mines| ==> mines[i].uid != mines[j].uid
  }

  function DigitChar(d: nat): char
    requires d < 10
  {
    ('0' as int + d) as char
  }

  /** The decimal digits of a number from 1 to 99, as written in a uid. */
  function Decimal(n: nat): string
    requires 0 < n < 100
  {
    if n < 10 then [DigitChar(n)] else [DigitChar(n / 10), DigitChar(n % 10)]
  }

  lemma DecimalInjective(m: nat, n: nat)
    requires 0 < m < 100 && 0 < n < 100 && Decimal(m) == Decimal(n)
    ensures m == n
  {
    if m < 10 && n < 10 {
      assert Decimal(m)[0] == Decimal(n)[0];
    } else if m >= 10 && n >= 10 {
      assert Decimal(m)[0] == Decimal(n)[0];
      assert Decimal(m)[1] == Decimal(n)[1];
    }
  }

  /** The table holds 22 sites, the k-th with uid "mine-k". */
  lemma AllIndianMinesNumbered()
    ensures |AllIndianMines| == 22
    ensures forall i :: 0 <= i < |AllIndianMines| ==> AllIndianMines[i].uid == "mine-" + Decimal(i + 1)
  {
  }

  /** The uids of the table are pairwise distinct. */
  lemma AllIndianMinesUidsDistinct()
    ensures UidsDistinct(AllIndianMines)
  {
    AllIndianMinesNumbered();
    forall i, j | 0 <= i < j < |AllIndianMines|
      ensures AllIndianMines[i].uid != AllIndianMines[j].uid
    {
      if AllIndianMines[i].uid == AllIndianMines[j].uid {
        assert Decimal(i + 1) == AllIndianMines[i].uid[5..];
        DecimalInjective(i + 1, j + 1);
      }
    }
  }
}
